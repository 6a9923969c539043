/** The API client `plan` and `apply` call: every method is one request to the server it holds. */
module Clients {
  import opened Options
  import opened Ordering
  import opened Values
  import opened Addons
  import opened ControlPlane

  class Client {
    const world: World
    var server: Server

    constructor (w: World, s: Server)
      ensures world == w && server == s
    {
      world, server := w, s;
    }

    /** Whether the project the file names exists, and its id. */
    method FindProject() returns (ok: bool, found: bool, id: string)
      modifies this
      ensures server == Arrive(world, old(server))
      ensures ok == (world.fate(old(server).served) == Delivered)
      ensures found == server.project.Some?
      ensures id == if server.project.Some? then server.project.value else ""
    {
      ok := world.fate(server.served) == Delivered;
      server := Arrive(world, server);
      found := server.project.Some?;
      id := if server.project.Some? then server.project.value else "";
    }

    method ListEnvironments() returns (ok: bool, envs: seq<Env>)
      modifies this
      ensures server == Arrive(world, old(server))
      ensures ok == (world.fate(old(server).served) == Delivered) && envs == server.envs
    {
      var n := server.served;
      server := Arrive(world, server);
      ok, envs := world.fate(n) == Delivered, server.envs;
    }

    /** Fails when the request is not answered, or the environment is not found. */
    method ListComponents(ref: string) returns (ok: bool, comps: seq<Component>)
      modifies this
      ensures server == Meanwhile(world, old(server))
      ensures ok == ReadOf(world, old(server), ref)
      ensures comps == Views(RowsIn(server, FoundId(world, old(server), ref)))
    {
      ok := ReadOf(world, server, ref);
      var id := FoundId(world, server, ref);
      server := Meanwhile(world, server);
      comps := Views(RowsIn(server, id));
    }

    /** The add-ons of an environment, in whatever order the server lists them. */
    method GetProjectAddons(ref: string) returns (ok: bool, rows: seq<AddonRow>)
      modifies this
      ensures server == Meanwhile(world, old(server))
      ensures ok == ReadOf(world, old(server), ref)
      ensures forall id :: RowOf(rows, id) == Listed(world, AddonsIn(server, FoundId(world, old(server), ref)), id)
      ensures Elements(rows) == ListedRows(world, AddonsIn(server, FoundId(world, old(server), ref))) && Distinct(rows)
    {
      ok := ReadOf(world, server, ref);
      var env := FoundId(world, server, ref);
      server := Meanwhile(world, server);
      var all := ListedRows(world, AddonsIn(server, env));
      rows := [];
      var rest := all;
      while rest != {}
        invariant rest <= all && Elements(rows) == all - rest && Distinct(rows)
      {
        var row :| row in rest;
        rest := rest - {row};
        assert row !in Elements(rows);
        assert Elements(rows + [row]) == Elements(rows) + {row};
        rows := rows + [row];
      }
      ListedById(world, AddonsIn(server, env), rows);
    }

    method CreateProject(specs: seq<EnvSpec>) returns (ok: bool, id: string)
      modifies this
      ensures var r := RequestCreate(world, old(server), specs); server == r.server && ok == r.ok
      ensures ok ==> server.project == Some(id)
    {
      var r := RequestCreate(world, server, specs);
      server := r.server;
      ok := r.ok;
      id := if server.project.Some? then server.project.value else "";
    }

    /** The answer carries the new environment's id, or not. */
    method AddEnvironment(spec: EnvSpec) returns (ok: bool, id: string)
      modifies this
      ensures var r := RequestAddEnv(world, old(server), spec); server == r.server && ok == r.ok
      ensures id == if ok && world.answersId(old(server).served) then server.envs[|server.envs| - 1].id else ""
    {
      var n := server.served;
      var r := RequestAddEnv(world, server, spec);
      server := r.server;
      ok := r.ok;
      id := if ok && world.answersId(n) then server.envs[|server.envs| - 1].id else "";
    }

    method AddComponent(ref: string, kind: string, name: string, fields: Fields) returns (ok: bool)
      modifies this
      ensures var r := RequestAdd(world, old(server), ref, kind, name, fields); server == r.server && ok == r.ok
    {
      var r := RequestAdd(world, server, ref, kind, name, fields);
      server, ok := r.server, r.ok;
    }

    method UpdateComponent(ref: string, kind: string, name: string, body: Fields, ifMatch: Option<nat>) returns (ok: bool)
      modifies this
      ensures var r := RequestUpdate(world, old(server), ref, kind, name, body, ifMatch); server == r.server && ok == r.ok
    {
      var r := RequestUpdate(world, server, ref, kind, name, body, ifMatch);
      server, ok := r.server, r.ok;
    }

    method UpsertComponent(ref: string, kind: string, body: Fields, ifMatch: Option<nat>) returns (ok: bool)
      modifies this
      ensures var r := RequestUpsert(world, old(server), ref, kind, body, ifMatch); server == r.server && ok == r.ok
    {
      var r := RequestUpsert(world, server, ref, kind, body, ifMatch);
      server, ok := r.server, r.ok;
    }

    method EnableAddon(ref: string, req: AddonRequest) returns (ok: bool)
      modifies this
      ensures var r := RequestEnable(world, old(server), ref, req); server == r.server && ok == r.ok
    {
      var r := RequestEnable(world, server, ref, req);
      server, ok := r.server, r.ok;
    }

    method QueueDeploy(ref: string) returns (ok: bool, job: nat)
      modifies this
      ensures var r := RequestDeploy(world, old(server), ref); server == r.server && ok == r.ok
      ensures ok ==> job + 1 == |server.jobs|
    {
      var r := RequestDeploy(world, server, ref);
      server, ok := r.server, r.ok;
      job := if ok then |server.jobs| - 1 else 0;
    }
  }

  function Listed(w: World, stored: map<string, StoredAddon>, id: string): Option<AddonRow> {
    if id in stored then Some(RowView(id, stored[id], EntryOf(w.catalog, id))) else None
  }

  function ListedRows(w: World, stored: map<string, StoredAddon>): set<AddonRow> {
    set id | id in stored :: RowView(id, stored[id], EntryOf(w.catalog, id))
  }

  lemma {:induction false} RowOfMeans(rows: seq<AddonRow>, id: string)
    ensures RowOf(rows, id).Some? ==> RowOf(rows, id).value in rows && RowOf(rows, id).value.id == id
    ensures RowOf(rows, id) == None ==> forall r :: r in rows ==> r.id != id
  {
    if rows != [] { RowOfMeans(rows[..|rows| - 1], id); }
  }

  /** Whatever the order, each id has its row. */
  lemma ListedById(w: World, stored: map<string, StoredAddon>, rows: seq<AddonRow>)
    requires Elements(rows) == ListedRows(w, stored)
    ensures forall id :: RowOf(rows, id) == Listed(w, stored, id)
  {
    hide EntryOf, RowOf;
    forall id ensures RowOf(rows, id) == Listed(w, stored, id) {
      RowOfMeans(rows, id);
      if id in stored {
        assert RowView(id, stored[id], EntryOf(w.catalog, id)) in Elements(rows);
      }
      if RowOf(rows, id).Some? { assert RowOf(rows, id).value in Elements(rows); }
    }
  }
}
