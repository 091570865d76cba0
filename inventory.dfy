/**
  The inventory generator of the deployer (`DMAPDeployer.update_inventory`).

  The VM configuration is an ordered mapping from VM name to a list that is
  expected to be `[ip, username, service]`. A loop collects, per service role,
  the last VM that names it; the inventory document then looks up exactly the
  four roles backend, postgres, neo4j and kafka, and is handed to the file
  write. Any failure before the write (an entry that does not unpack into three
  fields, a missing role) makes the operation report `False` without writing.
*/
module Inventory {
  import opened Wrappers

  /** One item of the VM configuration, in insertion order: the VM's name and
      the list it maps to, whose three fields should be ip, user and service. */
  datatype VmEntry = VmEntry(name: string, fields: seq<string>)

  /** What the role map keeps for a role: the VM's name, address and user. */
  datatype Host = Host(vmName: string, ip: string, username: string)

  datatype InventoryError =
    | MalformedEntry(vmName: string)  // the loop stopped at this VM: its list does not unpack into three fields
    | MissingRole(role: string)       // a required role has no VM

  /** A value of the shared `vars` block: a literal, or a lookup of an
      environment variable with a literal default (evaluated by Ansible). */
  datatype VarValue = Literal(text: string) | EnvOrDefault(envVar: string, default: string)

  datatype HostVars = HostVars(ansibleHost: string, ansibleUser: string)

  /** `<role>: {hosts: {<vm name>: {ansible_host, ansible_user}}}` */
  datatype Group = Group(hosts: map<string, HostVars>)

  /** The `all` section: `children` by role and the shared `vars`. */
  datatype AllGroup = AllGroup(children: map<string, Group>, vars: map<string, VarValue>)

  /** The whole inventory document, `{all: ...}`. */
  datatype Document = Document(all: AllGroup)

  /** What one call of update_inventory does: the document is written (True),
      the write of the document raised (False), or the operation failed before
      any write (False). */
  datatype InventoryOutcome =
    | Written(doc: Document)
    | WriteFailed(doc: Document)
    | Rejected(error: InventoryError)
  {
    /** The boolean update_inventory returns. */
    predicate Succeeded() { Written? }

    /** Whether the file write was reached. */
    predicate WriteAttempted() { Written? || WriteFailed? }
  }

  const Backend: string := "backend"
  const Postgres: string := "postgres"
  const Neo4j: string := "neo4j"
  const Kafka: string := "kafka"

  /** The four groups of the inventory, in the order the document looks them up. */
  const LookupOrder: seq<string> := [Backend, Postgres, Neo4j, Kafka]
  const RequiredRoles: set<string> := {Backend, Postgres, Neo4j, Kafka}

  /** The `vars` block, identical for every configuration. */
  const InventoryVars: map<string, VarValue> := map[
    "ansible_ssh_private_key_file" := Literal("~/.ssh/id_rsa"),
    "ansible_ssh_common_args" := Literal("-o StrictHostKeyChecking=no"),
    "docker_registry" := Literal("ngdmapo"),
    "docker_repo" := Literal("dmap_app_modernization"),
    "docker_hub_username" := EnvOrDefault("DOCKER_HUB_USERNAME", "ngdmapo"),
    "docker_hub_password" := EnvOrDefault("DOCKER_HUB_PASSWORD", "")
  ]

  /** The entry's list unpacks into `(ip, username, service)`. */
  predicate WellFormed(e: VmEntry) { |e.fields| == 3 }

  predicate AllWellFormed(config: seq<VmEntry>) {
    forall i :: 0 <= i < |config| ==> WellFormed(config[i])
  }

  function ServiceOf(e: VmEntry): string
    requires WellFormed(e)
  {
    e.fields[2]
  }

  function HostOf(e: VmEntry): Host
    requires WellFormed(e)
  {
    Host(e.name, e.fields[0], e.fields[1])
  }

  /** The roles named anywhere in the configuration. */
  function Services(config: seq<VmEntry>): set<string>
    requires AllWellFormed(config)
  {
    set i | 0 <= i < |config| :: ServiceOf(config[i])
  }

  /** Entry `i` names `role` and no later entry does. */
  ghost predicate IsLastFor(config: seq<VmEntry>, role: string, i: int)
    requires AllWellFormed(config)
  {
    0 <= i < |config| && ServiceOf(config[i]) == role &&
    forall j :: i < j < |config| ==> ServiceOf(config[j]) != role
  }

  /** Entry `k` is the first one that does not unpack. */
  ghost predicate IsFirstMalformed(config: seq<VmEntry>, k: int) {
    0 <= k < |config| && !WellFormed(config[k]) &&
    forall j :: 0 <= j < k ==> WellFormed(config[j])
  }

  /** The configuration the inventory can be built from: every entry unpacks
      and every required role is named. */
  predicate Deployable(config: seq<VmEntry>) {
    AllWellFormed(config) && RequiredRoles <= Services(config)
  }

  /** The role map the loop of update_inventory leaves after going through
      `config` in order: each entry sets its role's host, overwriting any
      earlier one; the first entry that does not unpack stops the loop. */
  function RoleMapOf(config: seq<VmEntry>): (r: Result<map<string, Host>, InventoryError>)
    ensures r.Success? <==> AllWellFormed(config)
    decreases |config|
  {
    if config == [] then Success(map[])
    else
      var prefix, last := config[..|config| - 1], config[|config| - 1];
      assert forall i :: 0 <= i < |prefix| ==> prefix[i] == config[i];
      match RoleMapOf(prefix)
      case Failure(e) => Failure(e)
      case Success(m) =>
        if WellFormed(last) then Success(m[ServiceOf(last) := HostOf(last)])
        else Failure(MalformedEntry(last.name))
  }

  function GroupFor(h: Host): Group {
    Group(map[h.vmName := HostVars(h.ip, h.username)])
  }

  /** The nested inventory literal: looks up the four roles in document order;
      the first one that is absent makes the whole expression fail. */
  function BuildDocument(roles: map<string, Host>): Result<Document, InventoryError> {
    if Backend !in roles then Failure(MissingRole(Backend))
    else if Postgres !in roles then Failure(MissingRole(Postgres))
    else if Neo4j !in roles then Failure(MissingRole(Neo4j))
    else if Kafka !in roles then Failure(MissingRole(Kafka))
    else
      Success(Document(AllGroup(
        map[Backend := GroupFor(roles[Backend]),
            Postgres := GroupFor(roles[Postgres]),
            Neo4j := GroupFor(roles[Neo4j]),
            Kafka := GroupFor(roles[Kafka])],
        InventoryVars)))
  }

  /** What update_inventory does for `config` when the file write succeeds
      exactly if `writeOk`. */
  function InventoryOf(config: seq<VmEntry>, writeOk: bool): InventoryOutcome {
    match RoleMapOf(config)
    case Failure(e) => Rejected(e)
    case Success(roles) =>
      match BuildDocument(roles)
      case Failure(e) => Rejected(e)
      case Success(doc) => if writeOk then Written(doc) else WriteFailed(doc)
  }

  /** update_inventory: the loop fills the role map in place, then the
      inventory literal is built and handed to the write. */
  method UpdateInventory(config: seq<VmEntry>, writeOk: bool) returns (outcome: InventoryOutcome)
    ensures outcome == InventoryOf(config, writeOk)
    ensures outcome.WriteAttempted() <==> Deployable(config)
    ensures outcome.Succeeded() <==> Deployable(config) && writeOk
  {
    InventoryWrittenIff(config, writeOk);
    var serviceToVm: map<string, Host> := map[];
    var i := 0;
    while i < |config|
      invariant 0 <= i <= |config|
      invariant RoleMapOf(config[..i]) == Success(serviceToVm)
    {
      var e := config[i];
      assert config[..i + 1][..i] == config[..i];
      if |e.fields| != 3 {
        RoleMapFailurePersists(config, i + 1);
        return Rejected(MalformedEntry(e.name));
      }
      serviceToVm := serviceToVm[e.fields[2] := Host(e.name, e.fields[0], e.fields[1])];
      i := i + 1;
    }
    assert config[..i] == config;
    match BuildDocument(serviceToVm)
    case Failure(err) =>
      outcome := Rejected(err);
    case Success(doc) =>
      outcome := if writeOk then Written(doc) else WriteFailed(doc);
  }

  /** Once a prefix of the configuration has stopped the loop, the rest of
      the configuration does not matter. */
  lemma {:induction false} RoleMapFailurePersists(config: seq<VmEntry>, k: nat)
    requires k <= |config|
    requires RoleMapOf(config[..k]).Failure?
    ensures RoleMapOf(config) == RoleMapOf(config[..k])
    decreases |config| - k
  {
    if k == |config| {
      assert config[..k] == config;
    } else {
      var prefix := config[..|config| - 1];
      assert prefix[..k] == config[..k];
      RoleMapFailurePersists(prefix, k);
    }
  }

  /** The loop stops at the first entry that does not unpack; the failure value
      identifies that entry. */
  lemma {:induction false} RoleMapStopsAtFirstMalformed(config: seq<VmEntry>)
    requires !AllWellFormed(config)
    ensures exists k :: IsFirstMalformed(config, k) &&
                        RoleMapOf(config) == Failure(MalformedEntry(config[k].name))
  {
    var prefix, last := config[..|config| - 1], config[|config| - 1];
    if AllWellFormed(prefix) {
      assert IsFirstMalformed(config, |config| - 1);
    } else {
      RoleMapStopsAtFirstMalformed(prefix);
      var k :| IsFirstMalformed(prefix, k) &&
               RoleMapOf(prefix) == Failure(MalformedEntry(prefix[k].name));
      assert IsFirstMalformed(config, k);
    }
  }

  /** The role map holds exactly the roles named in the configuration. */
  lemma {:induction false} RoleMapDomain(config: seq<VmEntry>)
    requires AllWellFormed(config)
    ensures RoleMapOf(config).value.Keys == Services(config)
  {
    if config != [] {
      var prefix, last := config[..|config| - 1], config[|config| - 1];
      assert AllWellFormed(prefix) by {
        forall i | 0 <= i < |prefix| ensures WellFormed(prefix[i]) {
          assert prefix[i] == config[i];
        }
      }
      RoleMapDomain(prefix);
      assert Services(config) == Services(prefix) + {ServiceOf(last)} by {
        forall s | s in Services(config) ensures s in Services(prefix) + {ServiceOf(last)} {
          var i :| 0 <= i < |config| && ServiceOf(config[i]) == s;
          if i < |prefix| { assert prefix[i] == config[i]; }
        }
        forall s | s in Services(prefix) ensures s in Services(config) {
          var i :| 0 <= i < |prefix| && ServiceOf(prefix[i]) == s;
          assert config[i] == prefix[i];
        }
        assert ServiceOf(config[|config| - 1]) == ServiceOf(last);
      }
    }
  }

  /** Last write wins: the host kept for a named role is that of the last
      entry naming it. */
  lemma {:induction false} RoleMapLastWins(config: seq<VmEntry>, role: string)
    requires AllWellFormed(config)
    requires role in Services(config)
    ensures role in RoleMapOf(config).value
    ensures exists i :: IsLastFor(config, role, i) && RoleMapOf(config).value[role] == HostOf(config[i])
  {
    var n := |config|;
    var prefix, last := config[..n - 1], config[n - 1];
    assert AllWellFormed(prefix) by {
      forall i | 0 <= i < |prefix| ensures WellFormed(prefix[i]) {
        assert prefix[i] == config[i];
      }
    }
    var m := RoleMapOf(prefix).value;
    assert RoleMapOf(config).value == m[ServiceOf(last) := HostOf(last)];
    if ServiceOf(last) == role {
      assert IsLastFor(config, role, n - 1);
    } else {
      var k :| 0 <= k < n && ServiceOf(config[k]) == role;
      assert k < n - 1 && prefix[k] == config[k];
      assert role in Services(prefix);
      RoleMapLastWins(prefix, role);
      var i :| IsLastFor(prefix, role, i) && m[role] == HostOf(prefix[i]);
      assert prefix[i] == config[i];
      forall j | i < j < n ensures ServiceOf(config[j]) != role {
        if j < n - 1 { assert prefix[j] == config[j]; }
      }
      assert IsLastFor(config, role, i);
    }
  }

  /** The write is reached exactly for a deployable configuration, and the
      operation reports success exactly when that write also succeeds. */
  lemma InventoryWrittenIff(config: seq<VmEntry>, writeOk: bool)
    ensures InventoryOf(config, writeOk).WriteAttempted() <==> Deployable(config)
    ensures InventoryOf(config, writeOk).Succeeded() <==> Deployable(config) && writeOk
    ensures InventoryOf(config, writeOk).Rejected? <==> !Deployable(config)
  {
    if AllWellFormed(config) {
      RoleMapDomain(config);
    }
  }

  /** A failure identifies the first entry that does not unpack or, when all
      unpack, the first required role (in document order) that is missing. */
  lemma InventoryRejection(config: seq<VmEntry>, writeOk: bool)
    requires !Deployable(config)
    ensures !AllWellFormed(config) ==>
      exists k :: IsFirstMalformed(config, k) &&
                  InventoryOf(config, writeOk) == Rejected(MalformedEntry(config[k].name))
    ensures AllWellFormed(config) ==>
      exists k :: 0 <= k < |LookupOrder| && LookupOrder[k] !in Services(config) &&
                  (forall j :: 0 <= j < k ==> LookupOrder[j] in Services(config)) &&
                  InventoryOf(config, writeOk) == Rejected(MissingRole(LookupOrder[k]))
  {
    if !AllWellFormed(config) {
      RoleMapStopsAtFirstMalformed(config);
    } else {
      RoleMapDomain(config);
      var s := Services(config);
      if Backend !in s {
        assert LookupOrder[0] == Backend;
      } else if Postgres !in s {
        assert LookupOrder[0] in s && LookupOrder[1] == Postgres;
      } else if Neo4j !in s {
        assert LookupOrder[0] in s && LookupOrder[1] in s && LookupOrder[2] == Neo4j;
      } else {
        assert LookupOrder[0] in s && LookupOrder[1] in s && LookupOrder[2] in s;
        assert LookupOrder[3] == Kafka;
      }
    }
  }

  /** The inventory literal has one group per required role, holding that
      role's host. */
  lemma DocumentGroups(roles: map<string, Host>)
    requires BuildDocument(roles).Success?
    ensures RequiredRoles <= roles.Keys
    ensures BuildDocument(roles).value.all.children.Keys == RequiredRoles
    ensures forall r :: r in RequiredRoles ==>
              BuildDocument(roles).value.all.children[r] == GroupFor(roles[r])
    ensures BuildDocument(roles).value.all.vars == InventoryVars
  {
  }

  /** The document handed to the write has exactly the four groups, one host
      each, and the constant `vars` block; roles outside the four do not
      appear. */
  lemma InventoryGroups(config: seq<VmEntry>, writeOk: bool)
    requires InventoryOf(config, writeOk).WriteAttempted()
    ensures InventoryOf(config, writeOk).doc.all.children.Keys == RequiredRoles
    ensures forall role :: role in RequiredRoles ==>
              |InventoryOf(config, writeOk).doc.all.children[role].hosts| == 1
    ensures InventoryOf(config, writeOk).doc.all.vars == InventoryVars
  {
    DocumentGroups(RoleMapOf(config).value);
  }
  /** Each group's single host is the last entry naming that role, with its
      address as `ansible_host` and its user as `ansible_user`. */
  lemma InventoryHostIsLastEntry(config: seq<VmEntry>, writeOk: bool, role: string)
    requires InventoryOf(config, writeOk).WriteAttempted()
    requires role in RequiredRoles
    ensures AllWellFormed(config)
    ensures exists i :: IsLastFor(config, role, i) &&
              InventoryOf(config, writeOk).doc.all.children[role] ==
              Group(map[config[i].name := HostVars(config[i].fields[0], config[i].fields[1])])
  {
    InventoryWrittenIff(config, writeOk);
    RoleMapLastWins(config, role);
    var i :| IsLastFor(config, role, i) && RoleMapOf(config).value[role] == HostOf(config[i]);
    assert InventoryOf(config, writeOk).doc.all.children[role] == GroupFor(HostOf(config[i]));
  }

  /** Appending an entry for a required role replaces that role's group with
      the new entry's host and leaves the other groups as they were; an entry
      for any other role changes nothing. */
  lemma LaterEntryOverwrites(config: seq<VmEntry>, e: VmEntry, writeOk: bool)
    requires InventoryOf(config, writeOk).WriteAttempted()
    requires WellFormed(e)
    ensures InventoryOf(config + [e], writeOk).WriteAttempted()
    ensures ServiceOf(e) in RequiredRoles ==>
              InventoryOf(config + [e], writeOk).doc.all.children[ServiceOf(e)] == GroupFor(HostOf(e))
    ensures forall r :: r in RequiredRoles && r != ServiceOf(e) ==>
              InventoryOf(config + [e], writeOk).doc.all.children[r] ==
              InventoryOf(config, writeOk).doc.all.children[r]
  {
    var c := config + [e];
    assert c[..|c| - 1] == config;
    InventoryWrittenIff(config, writeOk);
    RoleMapDomain(config);
    var m := RoleMapOf(config).value;
    assert RoleMapOf(c) == Success(m[ServiceOf(e) := HostOf(e)]);
    DocumentGroups(m);
    DocumentGroups(m[ServiceOf(e) := HostOf(e)]);
  }
}
