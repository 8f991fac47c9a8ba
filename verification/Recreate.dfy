/** Recreating a container with a new image (internal/update/updater.go, RecreateContainer) against a container
    daemon any of whose calls may fail.

    The daemon keeps names unique, refuses to remove a running container, and answers each call in one of three
    ways: it carries it out, it fails without effect, or it carries it out and the answer is lost. Nobody else
    uses the daemon meanwhile. */
module Recreate {

  type Id = nat

  datatype HostConfig = HostConfig(
    binds: seq<string>,
    portBindings: map<string, seq<(string, string)>>,
    restartPolicy: (string, int),
    networkMode: string,
    autoRemove: bool)

  datatype Config = Config(
    env: seq<string>,
    cmd: seq<string>,
    entrypoint: seq<string>,
    exposedPorts: set<string>,
    labels: map<string, string>,
    workingDir: string,
    user: string)

  datatype Endpoint = Endpoint(networkId: string, ipAddress: string, aliases: seq<string>)

  datatype Container = Container(
    name: string, image: string, config: Config, host: HostConfig, networks: map<string, Endpoint>, running: bool)

  /** The create request: what of a container a caller may choose. */
  datatype Body = Body(image: string, config: Config, host: HostConfig, aliases: map<string, seq<string>>)

  datatype Inspected = Inspected(name: string, image: string, config: Config, host: HostConfig, networks: map<string, Endpoint>)

  datatype Answer = Done | Refused | Lost

  datatype Result =
    | Ok
    | InspectFailed
    | StopFailed
    | RemoveFailed
    | RolledBack          // "... failed (rolled back to old image)"
    | RollbackFailed      // "... and rollback also failed"
    | RollbackStartFailed // "... and rollback start failed"

  type Containers = map<Id, Container>

  predicate NameFree(cs: Containers, name: string) {
    forall x :: x in cs ==> cs[x].name != name
  }

  ghost predicate UniqueNames(cs: Containers) {
    && (forall x :: x in cs ==> cs[x].name != "")
    && (forall x, y :: x in cs && y in cs && cs[x].name == cs[y].name ==> x == y)
  }

  function AliasesOf(networks: map<string, Endpoint>): map<string, seq<string>> {
    map n | n in networks :: networks[n].aliases
  }

  /** What recreating a container must carry over. */
  function Kept(c: Container): (Config, seq<string>, map<string, seq<(string, string)>>, (string, int), string, map<string, seq<string>>) {
    (c.config, c.host.binds, c.host.portBindings, c.host.restartPolicy, c.host.networkMode, AliasesOf(c.networks))
  }

  /** What inspect reports; the daemon puts a slash before the name. */
  function Shown(c: Container): Inspected {
    Inspected("/" + c.name, c.image, c.config, c.host, c.networks)
  }

  function TrimSlash(s: string): string {
    if s != "" && s[0] == '/' then s[1..] else s
  }

  class Daemon {
    var containers: Containers
    var nextId: Id
    ghost var failures: nat // calls not carried out and answered
    ghost var lost: nat     // those among them that were carried out

    ghost predicate Valid() reads this {
      UniqueNames(containers) && forall x :: x in containers ==> x < nextId
    }

    constructor ()
      ensures Valid() && containers == map[]
    {
      containers, nextId, failures, lost := map[], 0, 0, 0;
    }

    /** How a call fares. */
    method Fate() returns (fate: Answer)
      modifies this`failures, this`lost
      ensures failures == old(failures) + if fate.Done? then 0 else 1
      ensures lost == old(lost) + if fate.Lost? then 1 else 0
    {
      fate := *;
      failures := failures + if fate.Done? then 0 else 1;
      lost := lost + if fate.Lost? then 1 else 0;
    }

    method Inspect(id: Id) returns (ok: bool, info: Inspected)
      modifies this`failures, this`lost
      ensures old(failures) <= failures <= old(failures) + 1 && old(lost) <= lost
      ensures ok <==> id in containers && failures == old(failures)
      ensures ok ==> info == Shown(containers[id])
    {
      var fate := Fate();
      if id in containers && fate.Done? {
        return true, Shown(containers[id]);
      }
      info := *;
      return false, info;
    }

    method Stop(id: Id) returns (ok: bool)
      requires Valid()
      modifies this`containers, this`failures, this`lost
      ensures Valid()
      ensures old(failures) <= failures <= old(failures) + 1 && old(lost) <= lost
      ensures ok <==> id in old(containers) && failures == old(failures)
      ensures containers == old(containers) ||
              (id in old(containers) && containers == old(containers)[id := old(containers)[id].(running := false)])
      ensures ok ==> !containers[id].running
    {
      var fate := Fate();
      if id !in containers || fate.Refused? {
        return false;
      }
      containers := containers[id := containers[id].(running := false)];
      return fate.Done?;
    }

    method Remove(id: Id) returns (ok: bool)
      requires Valid()
      modifies this`containers, this`failures, this`lost
      ensures Valid()
      ensures old(failures) <= failures <= old(failures) + 1 && old(lost) <= lost
      ensures ok <==> id in old(containers) && !old(containers)[id].running && failures == old(failures)
      ensures containers == old(containers) || (id in old(containers) && containers == old(containers) - {id})
      ensures ok ==> id !in containers
      ensures !ok && lost == old(lost) ==> containers == old(containers)
    {
      var fate := Fate();
      if id !in containers || containers[id].running || fate.Refused? {
        return false;
      }
      containers := containers - {id};
      return fate.Done?;
    }

    method Create(name: string, body: Body) returns (ok: bool, id: Id)
      requires Valid() && name != ""
      modifies this
      ensures Valid() && nextId >= old(nextId)
      ensures old(failures) <= failures <= old(failures) + 1 && old(lost) <= lost
      ensures ok <==> NameFree(old(containers), name) && failures == old(failures)
      ensures containers == old(containers) ||
              (NameFree(old(containers), name) && exists y :: IsNew(old(containers), containers, old(nextId), y, name, body))
      ensures ok ==> IsNew(old(containers), containers, old(nextId), id, name, body)
      ensures !ok && lost == old(lost) ==> containers == old(containers)
    {
      var fate := Fate();
      id := nextId;
      if !NameFree(containers, name) || fate.Refused? {
        return false, id;
      }
      var networks := map n | n in body.aliases :: Endpoint("", "", body.aliases[n]);
      containers := containers[id := Container(name, body.image, body.config, body.host, networks, false)];
      nextId := nextId + 1;
      assert AliasesOf(networks) == body.aliases;
      assert IsNew(old(containers), containers, old(nextId), id, name, body);
      return fate.Done?, id;
    }

    method Start(id: Id) returns (ok: bool)
      requires Valid()
      modifies this`containers, this`failures, this`lost
      ensures Valid()
      ensures old(failures) <= failures <= old(failures) + 1 && old(lost) <= lost
      ensures ok <==> id in old(containers) && failures == old(failures)
      ensures containers == old(containers) ||
              (id in old(containers) && containers == old(containers)[id := old(containers)[id].(running := true)])
      ensures ok ==> id in containers && containers[id].running
      ensures !ok && lost == old(lost) ==> containers == old(containers)
    {
      var fate := Fate();
      if id !in containers || fate.Refused? {
        return false;
      }
      containers := containers[id := containers[id].(running := true)];
      return fate.Done?;
    }
  }

  /** The container is as the request asked. */
  ghost predicate MadeFrom(c: Container, name: string, body: Body) {
    c.name == name && c.image == body.image && c.config == body.config && c.host == body.host
    && AliasesOf(c.networks) == body.aliases
  }

  /** One stopped container was added, under an id no earlier than `from`. */
  ghost predicate IsNew(before: Containers, after: Containers, from: Id, id: Id, name: string, body: Body) {
    && id !in before && id >= from && id in after && after == before[id := after[id]]
    && MadeFrom(after[id], name, body) && !after[id].running
  }

  // ---- What recreating promises ----

  /** No container that is not in `base` runs this image. */
  ghost predicate NoneRuns(base: Containers, cs: Containers, image: string) {
    forall x :: x in cs && x !in base && cs[x].image == image ==> !cs[x].running
  }

  /** Compared with `base`, one container made from this request, under its image or another of `images`, has been
      added; when `running`, it runs. */
  ghost predicate Holds(base: Containers, cs: Containers, from: Id, name: string, body: Body, images: set<string>, running: bool) {
    exists y :: HoldsAt(base, cs, from, y, name, body, images, running)
  }

  ghost predicate HoldsAt(base: Containers, cs: Containers, from: Id, y: Id, name: string, body: Body, images: set<string>, running: bool) {
    && y >= from && y !in base && y in cs && cs == base[y := cs[y]]
    && cs[y].image in images && MadeFrom(cs[y], name, body.(image := cs[y].image)) && (running ==> cs[y].running)
  }

  /** A container just created, and perhaps started. */
  lemma Added(base: Containers, made: Containers, cs: Containers, from: Id, y: Id, name: string, body: Body,
              newBody: Body, images: set<string>, running: bool)
    requires IsNew(base, made, from, y, name, body) && body == newBody.(image := body.image) && body.image in images
    requires cs == made || cs == made[y := made[y].(running := true)]
    requires running ==> cs[y].running
    ensures Holds(base, cs, from, name, newBody, images, running) && y in cs && y !in base && cs - {y} == base
    ensures cs == made ==> !cs[y].running
  {
    assert HoldsAt(base, cs, from, y, name, newBody, images, running);
  }

  /** The second half: create and start, or roll back to the old image. */
  method CreateOrRollBack(docker: Daemon, name: string, newBody: Body, oldImage: string) returns (r: Result)
    requires docker.Valid() && NameFree(docker.containers, name) && name != ""
    modifies docker
    ensures docker.Valid()
    ensures var base, cs, from := old(docker.containers), docker.containers, old(docker.nextId);
            && (cs == base || Holds(base, cs, from, name, newBody, {newBody.image, oldImage}, false))
            && (r == Ok ==> Holds(base, cs, from, name, newBody, {newBody.image}, true))
            && (r == RolledBack ==> Holds(base, cs, from, name, newBody, {oldImage}, true))
            && (r == RollbackStartFailed ==> Holds(base, cs, from, name, newBody, {oldImage}, false))
            && (r == Ok || r == RolledBack || r == RollbackFailed || r == RollbackStartFailed)
            && (r == RollbackFailed && oldImage != newBody.image ==> NoneRuns(base, cs, oldImage))
    ensures docker.failures >= old(docker.failures) && docker.lost >= old(docker.lost)
    ensures r == Ok <==> docker.failures == old(docker.failures)
    ensures docker.failures == old(docker.failures) + 1 && docker.lost == old(docker.lost) ==> r == RolledBack
  {
    hide IsNew, Holds, HoldsAt, NameFree, NoneRuns;
    var body := newBody;
    ghost var base, from := docker.containers, docker.nextId;
    ghost var only := {newBody.image};
    var ok, newId := docker.Create(name, body);
    ghost var made := docker.containers;
    if !ok {
      if made != base {
        ghost var y :| IsNew(base, made, from, y, name, newBody);
        Added(base, made, made, from, y, name, newBody, newBody, only, false);
      }
      body := body.(image := oldImage);
      r := RollBack(docker, name, body, base, from, newBody);
      return;
    }

    Added(base, made, made, from, newId, name, newBody, newBody, only, false);
    ok := docker.Start(newId);
    Added(base, made, docker.containers, from, newId, name, newBody, newBody, only, false);
    if !ok {
      var _ := docker.Remove(newId);
      body := body.(image := oldImage);
      r := RollBack(docker, name, body, base, from, newBody);
      return;
    }
    Added(base, made, docker.containers, from, newId, name, newBody, newBody, only, true);
    MoreImages(base, docker.containers, from, name, newBody, only, {newBody.image, oldImage}, true);
    return Ok;
  }

  /** Creating and starting the old image again; the source writes it out in both branches. */
  method RollBack(docker: Daemon, name: string, body: Body, ghost base: Containers, ghost from: Id, ghost newBody: Body)
    returns (r: Result)
    requires docker.Valid() && NameFree(base, name) && name != "" && body == newBody.(image := body.image)
    requires docker.containers == base || Holds(base, docker.containers, from, name, newBody, {newBody.image}, false)
    requires from <= docker.nextId
    modifies docker
    ensures docker.Valid() && (r == RolledBack || r == RollbackFailed || r == RollbackStartFailed)
    ensures docker.failures >= old(docker.failures) && docker.lost >= old(docker.lost)
    ensures NameFree(old(docker.containers), name) && docker.failures == old(docker.failures) ==> r == RolledBack
    ensures docker.containers == base || Holds(base, docker.containers, from, name, newBody, {newBody.image, body.image}, false)
    ensures r == RolledBack ==> Holds(base, docker.containers, from, name, newBody, {body.image}, true)
    ensures r == RollbackStartFailed ==> Holds(base, docker.containers, from, name, newBody, {body.image}, false)
    ensures r == RollbackFailed && body.image != newBody.image ==> NoneRuns(base, docker.containers, body.image)
  {
    ghost var before := docker.containers;
    if NameFree(before, name) {
      NameTaken(base, before, name, from, newBody, {newBody.image});
    }
    NotTheOther(base, before, from, name, newBody, body.image);
    hide IsNew, Holds, HoldsAt, NameFree, NoneRuns;
    ghost var both := {newBody.image, body.image};
    if before != base {
      MoreImages(base, before, from, name, newBody, {newBody.image}, both, false);
    }
    var ok, rollbackId := docker.Create(name, body);
    ghost var made := docker.containers;
    if made != before {
      ghost var y :| IsNew(before, made, old(docker.nextId), y, name, body);
      Later(base, made, from, old(docker.nextId), y, name, body);
      Added(base, made, made, from, y, name, body, newBody, both, false);
      NewIsStopped(base, made, from, y, name, body);
    }
    if !ok {
      return RollbackFailed;
    }
    Later(base, made, from, old(docker.nextId), rollbackId, name, body);
    Added(base, made, made, from, rollbackId, name, body, newBody, both, false);
    ok := docker.Start(rollbackId);
    Added(base, made, docker.containers, from, rollbackId, name, body, newBody, both, false);
    if !ok {
      Added(base, made, docker.containers, from, rollbackId, name, body, newBody, {body.image}, false);
      return RollbackStartFailed;
    }
    Added(base, made, docker.containers, from, rollbackId, name, body, newBody, {body.image}, true);
    return RolledBack;
  }

  lemma MoreImages(base: Containers, cs: Containers, from: Id, name: string, body: Body,
                   images: set<string>, more: set<string>, running: bool)
    requires Holds(base, cs, from, name, body, images, running) && images <= more
    ensures Holds(base, cs, from, name, body, more, false)
  {
    var y :| HoldsAt(base, cs, from, y, name, body, images, running);
    assert HoldsAt(base, cs, from, y, name, body, more, false);
  }

  lemma NotTheOther(base: Containers, cs: Containers, from: Id, name: string, body: Body, other: string)
    requires cs == base || Holds(base, cs, from, name, body, {body.image}, false)
    ensures other != body.image ==> NoneRuns(base, cs, other)
  {
  }

  lemma NewIsStopped(base: Containers, made: Containers, from: Id, y: Id, name: string, body: Body)
    requires IsNew(base, made, from, y, name, body)
    ensures NoneRuns(base, made, body.image)
  {
  }

  lemma Later(base: Containers, made: Containers, from: Id, to: Id, y: Id, name: string, body: Body)
    requires from <= to && IsNew(base, made, to, y, name, body)
    ensures IsNew(base, made, from, y, name, body)
  {
  }

  /** A daemon that still holds the failed container refuses its name. */
  lemma NameTaken(base: Containers, cs: Containers, name: string, from: Id, body: Body, images: set<string>)
    requires NameFree(cs, name)
    ensures !Holds(base, cs, from, name, body, images, false)
  {
  }

  /** Every container of another name is untouched, and whatever new bears the old name carries its settings and
      one of these images. Names being unique, at most one does. */
  ghost predicate OnlyThisName(before: Containers, after: Containers, id: Id, images: set<string>)
    requires id in before
  {
    && (forall x :: x in before && x != id ==> x in after && after[x] == before[x])
    && (forall x :: x in after && x !in before ==>
          after[x].name == before[id].name && Kept(after[x]) == Kept(before[id]) && after[x].image in images)
    && (id in after ==> after[id] == before[id].(running := after[id].running))
  }

  /** A new container of the old name runs this image with the old settings. */
  ghost predicate Replaced(before: Containers, after: Containers, id: Id, image: string)
    requires id in before
  {
    id !in after &&
    exists y :: y in after && y !in before && after[y].name == before[id].name && after[y].running
                && after[y].image == image && Kept(after[y]) == Kept(before[id]) && !after[y].host.autoRemove
  }

  /** A new container of the old name has this image and the old settings, running or not. */
  ghost predicate Present(before: Containers, after: Containers, id: Id, image: string)
    requires id in before
  {
    id !in after &&
    exists y :: y in after && y !in before && after[y].name == before[id].name
                && after[y].image == image && Kept(after[y]) == Kept(before[id]) && !after[y].host.autoRemove
  }

  /** Field by field, what it is to keep a container's settings. */
  lemma KeptMeans(c: Container, d: Container)
    ensures Kept(c) == Kept(d) <==>
            && c.config.env == d.config.env && c.config.cmd == d.config.cmd && c.config.entrypoint == d.config.entrypoint
            && c.config.exposedPorts == d.config.exposedPorts && c.config.labels == d.config.labels
            && c.config.workingDir == d.config.workingDir && c.config.user == d.config.user
            && c.host.binds == d.host.binds && c.host.portBindings == d.host.portBindings
            && c.host.restartPolicy == d.host.restartPolicy && c.host.networkMode == d.host.networkMode
            && c.networks.Keys == d.networks.Keys
            && forall n :: n in c.networks && n in d.networks ==> c.networks[n].aliases == d.networks[n].aliases
  {
    if AliasesOf(c.networks) == AliasesOf(d.networks) {
      assert c.networks.Keys == AliasesOf(c.networks).Keys && d.networks.Keys == AliasesOf(d.networks).Keys;
      forall n | n in c.networks && n in d.networks ensures c.networks[n].aliases == d.networks[n].aliases {
        assert AliasesOf(c.networks)[n] == AliasesOf(d.networks)[n];
      }
    }
  }

  /** The first half: inspect, stop and remove. */
  method TakeDown(docker: Daemon, id: Id) returns (r: Result, info: Inspected)
    requires docker.Valid()
    modifies docker`containers, docker`failures, docker`lost
    ensures docker.Valid() && (r == Ok || r == InspectFailed || r == StopFailed || r == RemoveFailed)
    ensures docker.failures >= old(docker.failures) && docker.lost >= old(docker.lost)
    ensures r == Ok <==> id in old(docker.containers) && docker.failures == old(docker.failures)
    ensures r == Ok ==> info == Shown(old(docker.containers)[id]) && docker.containers == old(docker.containers) - {id}
    ensures id !in old(docker.containers) ==> r == InspectFailed
    ensures r == InspectFailed ==> docker.containers == old(docker.containers)
    ensures r == StopFailed ==> id in docker.containers
    ensures r == RemoveFailed && docker.lost == old(docker.lost) ==> id in docker.containers
    ensures r == RemoveFailed && id in docker.containers ==> !docker.containers[id].running
    ensures id in old(docker.containers) ==>
              OnlyThisName(old(docker.containers), docker.containers, id, {})
  {
    var ok;
    ok, info := docker.Inspect(id);
    if !ok {
      return InspectFailed, info;
    }
    ok := docker.Stop(id);
    if !ok {
      return StopFailed, info;
    }
    ok := docker.Remove(id);
    if !ok {
      return RemoveFailed, info;
    }
    return Ok, info;
  }

  /** Under any pattern of failures. It succeeds exactly when no call fails; and one failure, if the call had no effect,
      leaves the old container in place or is rolled back. */
  method RecreateContainer(docker: Daemon, id: Id, newImage: string) returns (r: Result)
    requires docker.Valid()
    modifies docker
    ensures docker.Valid()
    ensures id !in old(docker.containers) ==> r == InspectFailed
    ensures r == InspectFailed ==> docker.containers == old(docker.containers)
    ensures id in old(docker.containers) ==>
              && OnlyThisName(old(docker.containers), docker.containers, id, {newImage, old(docker.containers)[id].image})
              && (r == StopFailed ==> id in docker.containers)
              && (r == RemoveFailed && docker.lost == old(docker.lost) ==> id in docker.containers)
              && (r == RemoveFailed && id in docker.containers ==> !docker.containers[id].running)
              && (r == RollbackStartFailed ==>
                    Present(old(docker.containers), docker.containers, id, old(docker.containers)[id].image))
              && (r == RollbackFailed && old(docker.containers)[id].image != newImage ==>
                    NoneRuns(old(docker.containers), docker.containers, old(docker.containers)[id].image))
              && (r == Ok ==> Replaced(old(docker.containers), docker.containers, id, newImage))
              && (r == RolledBack ==> Replaced(old(docker.containers), docker.containers, id, old(docker.containers)[id].image))
              && (r == Ok <==> docker.failures == old(docker.failures))
              && (docker.failures == old(docker.failures) + 1 && docker.lost == old(docker.lost) ==>
                    r == InspectFailed || r == StopFailed || r == RemoveFailed || r == RolledBack)
  {
    ghost var before := docker.containers;
    var info;
    r, info := TakeDown(docker, id);
    if r != Ok {
      return;
    }
    var oldImage := info.image;
    var containerName := TrimSlash(info.name);
    assert containerName == before[id].name;
    assert NameFree(docker.containers, containerName);
    hide Holds, OnlyThisName, Replaced, Present, NoneRuns, NameFree, Kept, UniqueNames, TrimSlash;

    var host := HostConfig(info.host.binds, info.host.portBindings, info.host.restartPolicy, info.host.networkMode, false);
    var aliases := CopyAliases(info.networks);
    var body := Body(newImage, info.config, host, aliases);
    ghost var from := docker.nextId;
    r := CreateOrRollBack(docker, containerName, body, oldImage);
    Finished(before, docker.containers, id, from, body, oldImage, r);
  }

  lemma Finished(before: Containers, cs: Containers, id: Id, from: Id, body: Body, oldImage: string, r: Result)
    requires id in before && forall x :: x in before ==> x < from
    requires body.config == before[id].config && body.aliases == AliasesOf(before[id].networks)
    requires body.host == before[id].host.(autoRemove := false)
    requires cs == before - {id} || Holds(before - {id}, cs, from, before[id].name, body, {body.image, oldImage}, false)
    requires r == Ok ==> Holds(before - {id}, cs, from, before[id].name, body, {body.image}, true)
    requires r == RolledBack ==> Holds(before - {id}, cs, from, before[id].name, body, {oldImage}, true)
    requires r == RollbackStartFailed ==> Holds(before - {id}, cs, from, before[id].name, body, {oldImage}, false)
    requires r == RollbackFailed && oldImage != body.image ==> NoneRuns(before - {id}, cs, oldImage)
    ensures OnlyThisName(before, cs, id, {body.image, oldImage})
    ensures r == RollbackStartFailed ==> Present(before, cs, id, oldImage)
    ensures r == RollbackFailed && oldImage != body.image ==> NoneRuns(before, cs, oldImage)
    ensures r == Ok ==> Replaced(before, cs, id, body.image)
    ensures r == RolledBack ==> Replaced(before, cs, id, oldImage)
  {
    hide Holds, OnlyThisName, Replaced, Present;
    Recreated(before, cs, id, from, body, {body.image, oldImage}, false);
    if r == Ok {
      Recreated(before, cs, id, from, body, {body.image}, true);
    } else if r == RolledBack {
      Recreated(before, cs, id, from, body, {oldImage}, true);
    } else if r == RollbackStartFailed {
      RecreatedPresent(before, cs, id, from, body, oldImage);
    }
  }

  lemma RecreatedPresent(before: Containers, cs: Containers, id: Id, from: Id, body: Body, image: string)
    requires id in before && forall x :: x in before ==> x < from
    requires Holds(before - {id}, cs, from, before[id].name, body, {image}, false)
    requires body.config == before[id].config && body.aliases == AliasesOf(before[id].networks)
    requires body.host == before[id].host.(autoRemove := false)
    ensures Present(before, cs, id, image)
  {
  }

  lemma Recreated(before: Containers, cs: Containers, id: Id, from: Id, body: Body, images: set<string>, running: bool)
    requires id in before && forall x :: x in before ==> x < from
    requires (cs == before - {id} && !running) || Holds(before - {id}, cs, from, before[id].name, body, images, running)
    requires body.config == before[id].config && body.aliases == AliasesOf(before[id].networks)
    requires body.host == before[id].host.(autoRemove := false)
    ensures OnlyThisName(before, cs, id, images)
    ensures running ==> exists image :: image in images && Replaced(before, cs, id, image)
  {
  }

  /** The loop over the inspected networks, which keeps each one's aliases only. */
  method CopyAliases(networks: map<string, Endpoint>) returns (aliases: map<string, seq<string>>)
    ensures aliases == AliasesOf(networks)
  {
    aliases := map[];
    var left := networks.Keys;
    while left != {}
      invariant left <= networks.Keys
      invariant aliases == map n | n in networks && n !in left :: networks[n].aliases
      decreases left
    {
      var n :| n in left;
      aliases := aliases[n := networks[n].aliases];
      left := left - {n};
    }
  }
}
