# DMAP deployer: a Dafny model

`deploy.py` deploys the DMAP application to four virtual machines. The four
service roles are backend, postgres, neo4j and kafka. A Docker container
holds Ansible, and `DMAPDeployer` drives it:

- `build_ansible_container` builds that image when it is missing.
- `update_inventory` turns a VM configuration into Ansible's `inventory.yml`.
  The configuration maps each VM name to `[ip, username, service]`.
- `deploy` runs the whole flow: image, inventory, an optional connectivity
  test, a docker check, an optional docker setup, and the deployment playbook.
- `setup_docker_only` runs image, inventory, connectivity and docker setup.
- `main` is the command line. `deploy_dmap_application` is the entry point for
  other services.

The model has three files:

- `wrappers.dfy` holds `Option` and `Result`.
- `inventory.dfy` (module `Inventory`) models `update_inventory`:
  - `RoleMapOf` defines what its loop computes. The loop walks the entries in
    order and each entry overwrites the host kept for its role.
  - `BuildDocument` is the inventory literal. Its four-group `children` map
    looks up the roles in document order.
  - `InventoryOf` says what one call does. The document is written (`True`),
    or the write raises (`False`), or the call fails before any write
    (`False`): either an entry does not unpack into three fields, or a role is
    missing.
  - `UpdateInventory` is the imperative version. Its loop fills the role map
    in place and is proved equal to `InventoryOf`.
- `pipeline.dfy` (module `Pipeline`) models the flows:
  - Every external command is an oracle. An `Oracle` value fixes the boolean
    each command reports on this run.
  - Each flow returns the boolean deploy.py returns together with the trace of the
    steps it invoked, in order.
  - `DeployRun` and `SetupOnlyRun` give the outcome of each flow, branch by
    branch. The methods `Deploy` and `SetupDockerOnly` follow the early
    returns of `deploy` and `setup_docker_only` and are proved equal to them.
  - `RunPlan` is an independent reference semantics: fail-fast execution of a
    plan of steps. Both flows are proved to be `RunPlan` of their plans. From
    that follow ordering, fail-fast, the result and which steps are invoked.

If two entries name the same role, `update_inventory` keeps the last one,
because it assigns `service_to_vm[service]` for each entry in turn
(deploy.py:116-121). `RoleMapLastWins` and `LaterEntryOverwrites` state this.

Definitions that the lemmas and methods above are proved against:

- `Inventory.BuildDocument` (deploy.py:124-169): the inventory literal over the role map, failing with the first missing role in the order backend, postgres, neo4j, kafka.
- `Inventory.InventoryOf` (deploy.py:102-183): the outcome of one `update_inventory` call.
- `Pipeline.DeployRun` (deploy.py:319-368): the boolean and the step trace of `deploy`, branch by branch.
- `Pipeline.SetupOnlyRun` (deploy.py:370-402): the same for `setup_docker_only`.
- `Pipeline.CliRun` (deploy.py:437-441): the flow `main` selects, setup-only or deploy with `skip_connectivity` and `not skip_docker_setup`.
- `Pipeline.ConfigFileGiven` (deploy.py:419): a configuration file is named only when the option is present and not empty, as `if args.vm_config:` tests truthiness.

## Model

| member | source | states |
|---|---|---|
| Inventory.RoleMapOf | deploy.py:115-121 | The loop over the configuration completes exactly when every entry unpacks into three fields. |
| Inventory.UpdateInventory | deploy.py:102-183 | The in-place loop and the literal give the outcome `InventoryOf`. The write is reached exactly for a deployable configuration (every entry unpacks and all four roles are named). True is returned exactly when, in addition, the write succeeds. |
| Inventory.RoleMapFailurePersists | deploy.py:113-121 | Once an entry fails to unpack, the rest of the configuration does not change the outcome: the exception leaves the loop. |
| Inventory.RoleMapStopsAtFirstMalformed | deploy.py:116 | A failing loop fails at the first entry that does not unpack; the failure value identifies that entry (deploy.py itself reports only False and a printed message). |
| Inventory.RoleMapDomain | deploy.py:115-121 | The role map holds exactly the roles named in the configuration. |
| Inventory.RoleMapLastWins | deploy.py:116-121 | For each named role, the map keeps the host of the last entry naming it. |
| Inventory.InventoryWrittenIff | deploy.py:113-183 | The write is reached iff the configuration is deployable. The call reports success iff it is deployable and the write succeeds. It fails without writing iff the configuration is not deployable. |
| Inventory.InventoryRejection | deploy.py:124-169 | A failure identifies the first entry that does not unpack. When every entry unpacks, it identifies the first of backend, postgres, neo4j and kafka (lookup order) that is missing. |
| Inventory.DocumentGroups | deploy.py:124-169 | The literal has exactly the four role groups, each holding its role's host, and the fixed `vars` block. |
| Inventory.InventoryGroups | deploy.py:124-169 | A written document has exactly the four groups, one host each, and the six constant variables. Other roles in the configuration do not appear. |
| Inventory.InventoryHostIsLastEntry | deploy.py:116-156 | Each group's single host is the last entry naming the role. That entry's address is `ansible_host` and its user is `ansible_user`. |
| Inventory.LaterEntryOverwrites | deploy.py:116-121 | Appending a well-formed entry keeps the configuration deployable. For a required role, the new entry replaces that role's group. All other groups are unchanged. |
| Pipeline.CompletesIff | deploy.py:336-402 | A plan completes exactly when none of its steps aborts the flow. |
| Pipeline.RunPlanSnoc | deploy.py:336-402 | A step appended to a plan runs exactly when every earlier step completed. |
| Pipeline.RunPlanShape | deploy.py:336-402 | A fail-fast run is a prefix of its plan. No step before its last aborts. It is the whole plan when the plan completes, and otherwise ends with an aborting step. |
| Pipeline.BuildPlanRuns | deploy.py:71-100 | The build stage always runs to its end. It completes exactly when the image exists or its build succeeds. |
| Pipeline.BuildAnsibleContainer | deploy.py:71-100 | The image is always queried first. It is built exactly when missing. True is returned iff the image exists or the build succeeds. |
| Pipeline.Deploy | deploy.py:319-368 | The early returns give exactly `DeployRun`: the boolean and the step trace for every combination of outcomes and flags. |
| Pipeline.SetupDockerOnly | deploy.py:370-402 | The early returns give exactly `SetupOnlyRun`. |
| Pipeline.WrittenPlanRuns | deploy.py:336-341 | Up to the inventory, deploy completes iff the image is usable and the inventory step succeeds. If it stops earlier, it stops after the build. |
| Pipeline.ConnectedPlanRuns | deploy.py:344-346 | The connectivity stage is skipped or passes, and otherwise stops the flow. |
| Pipeline.PreparedPlanRuns | deploy.py:349-357 | The docker check never stops the flow. The setup stops it only when the check failed, setup is on, and the setup fails. |
| Pipeline.DeployRunIsFailFast | deploy.py:319-368 | deploy is the fail-fast run of its plan. It returns True exactly when the whole plan completes. |
| Pipeline.SetupOnlyRunIsFailFast | deploy.py:370-402 | setup_docker_only is the fail-fast run of its plan. |
| Pipeline.DeployPlanInOrder | deploy.py:333-368 | deploy's plan lists its steps in pipeline order. It never contains the verification step, whose call is commented out. |
| Pipeline.SetupOnlyPlanInOrder | deploy.py:382-402 | setup_docker_only's plan is in order. It has no docker check, no deployment and no verification. |
| Pipeline.RunOfOrderedPlan | deploy.py:319-402 | The run of an ordered plan starting with the image query is ordered, starts with the query, is fail-fast, and ends with the plan's last step or an aborting one. It holds only steps of the plan. |
| Pipeline.DeployOrderAndFailFast | deploy.py:319-368 | deploy starts with the image query and invokes its steps in pipeline order. It stops at the first failing step, ends either there or with the deployment, and never invokes verify_deployment. |
| Pipeline.DeployResult | deploy.py:359-368 | deploy returns True iff run_deployment was invoked and succeeded. |
| Pipeline.DeployGating | deploy.py:336-346 | deploy builds only for a missing image. The inventory follows a usable image. The connectivity test follows a written inventory unless it is skipped. |
| Pipeline.DeployDockerGating | deploy.py:348-360 | The docker check runs after the inventory and connectivity stages. Setup runs iff the check failed and setup is on. The deployment runs unless that setup failed; with setup off, a failed check still proceeds to the deployment. |
| Pipeline.DeployAllSucceed | deploy.py:319-368 | With the image present and every step succeeding, deploy (test on) returns True after exactly query, inventory, connectivity, docker check and deployment. |
| Pipeline.SetupOnlyOrderAndFailFast | deploy.py:370-402 | setup_docker_only starts with the image query and keeps pipeline order. It is fail-fast, ends with the setup or a failing step, and never runs the docker check, the deployment or the verification. |
| Pipeline.SetupOnlyGating | deploy.py:385-402 | setup_docker_only returns True iff the setup ran and succeeded. Connectivity runs iff the image and inventory stages passed. Setup runs iff connectivity passed. |
| Pipeline.DeployDmapApplication | deploy.py:447-460 | The entry point is deploy with the connectivity test and docker setup enabled. |
| Pipeline.DefaultConfigInventory | deploy.py:427-433 | The default configuration is deployable. Its inventory places vm4 in backend, vm1 in postgres, vm2 in neo4j and vm3 in kafka, with their addresses and user. |
| Pipeline.RunCommandLine | deploy.py:405-443 | The exit code is 0 or 1. A named file that cannot be loaded gives 1 with no step invoked. Otherwise the code is 0 exactly when the selected flow returns True: setup-only, or deploy with the skip flags as given. When no file is named, the default configuration is used. With default flags and all steps succeeding, the exit code is 0. |

## Left out

- External commands are oracle booleans in `Oracle`: the docker image query, the docker build, the ansible ping, the docker check, the setup playbook, the deployment playbook and verification. Their command lines, output, timeouts and exceptions are not modelled. An exception in any of them returns False, the same as a failure, so a boolean covers both.
- The YAML serialisation and the file write are the `writeOk` oracle. The document written is the `Document` value, not its text.
- The Jinja lookups in the `vars` block are `EnvOrDefault` values. Ansible evaluates them, not this program.
- Console output is not modelled. The line that prints each VM's role runs after the write, on entries already known to unpack; with string services it cannot raise.
- The path resolution in `DMAPDeployer.__init__` is not modelled. It only fixes file locations.
- Command-line parsing and JSON loading are not modelled. The parsed options are a `CliArgs` value and the loaded configuration is an `Option` input.
- The configuration is modelled as a sequence of (name, list of strings) entries. JSON values of other shapes are not modelled:
  - a top-level value that is not an object raises at `.items()` (deploy.py:116), before any write, so the call returns False;
  - a service that is a list or an object is unhashable and raises at the dictionary assignment (deploy.py:117), also before any write, returning False;
  - a string of three characters as a VM's value unpacks into three one-character fields;
  - a service that is a number, a boolean or null passes the loop but has no `title()`, so the print loop (deploy.py:176-177) raises after the write and the call returns False with the file already written.
- `test_service_call.py` is not part of this model. It is a test driver with no logic of the deployer.
