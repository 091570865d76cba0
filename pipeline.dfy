/**
  The step sequencing of the deployer: `build_ansible_container`, `deploy`,
  `setup_docker_only`, the programmatic entry point and the command line.

  Every external command (a docker or ansible invocation) is an oracle whose
  only effect is its boolean outcome, given by an `Oracle` value. Each flow
  returns the boolean deploy.py returns together with the trace of the steps
  it invoked, in order, so that ordering, gating and "never invoked" can be
  stated about the trace.
*/
module Pipeline {
  import opened Wrappers
  import opened Inventory

  /** The steps a flow can invoke. */
  datatype Step =
    | QueryImage        // check_container_exists: does the control image exist?
    | BuildImage        // docker build of the control image
    | WriteInventory    // update_inventory
    | TestConnectivity  // test_connectivity: ansible ping of all hosts
    | CheckDocker       // check_docker_on_vms
    | SetupDocker       // setup_docker: the installation playbook
    | RunDeployment     // run_deployment: the deployment playbook
    | VerifyDeployment  // verify_deployment

  /** The outcome every external command would report on this run. */
  datatype Oracle = Oracle(
    imageExists: bool,
    buildOk: bool,
    writeOk: bool,
    pingOk: bool,
    dockerPresent: bool,
    setupOk: bool,
    deployOk: bool,
    verifyOk: bool)

  /** The position of each step in the pipeline
      build -> inventory -> connectivity -> docker check -> setup -> deployment. */
  function Rank(s: Step): nat {
    match s
    case QueryImage => 0
    case BuildImage => 1
    case WriteInventory => 2
    case TestConnectivity => 3
    case CheckDocker => 4
    case SetupDocker => 5
    case RunDeployment => 6
    case VerifyDeployment => 7
  }

  /** The steps appear in pipeline order, each at most once. */
  predicate InPipelineOrder(trace: seq<Step>) {
    forall i, j :: 0 <= i < j < |trace| ==> Rank(trace[i]) < Rank(trace[j])
  }

  /** Invoking `s` makes the flow return False at once. A failed image query
      leads to a build, and a failed docker check is handled by the flow, so
      neither aborts by itself. */
  predicate Aborts(o: Oracle, inventoryOk: bool, s: Step) {
    match s
    case QueryImage => false
    case BuildImage => !o.buildOk
    case WriteInventory => !inventoryOk
    case TestConnectivity => !o.pingOk
    case CheckDocker => false
    case SetupDocker => !o.setupOk
    case RunDeployment => !o.deployOk
    case VerifyDeployment => !o.verifyOk
  }

  /** Fail-fast: no step before the last one aborted the flow. */
  predicate FailFast(o: Oracle, inventoryOk: bool, trace: seq<Step>) {
    forall i :: 0 <= i < |trace| - 1 ==> !Aborts(o, inventoryOk, trace[i])
  }

  function Last(trace: seq<Step>): Step
    requires trace != []
  {
    trace[|trace| - 1]
  }

  /** All steps of a non-empty trace but the last. */
  function Front(trace: seq<Step>): seq<Step>
    requires trace != []
  {
    trace[..|trace| - 1]
  }

  /** No step of the plan aborts. */
  predicate Completes(plan: seq<Step>, o: Oracle, inventoryOk: bool)
    decreases |plan|
  {
    plan == [] || (Completes(Front(plan), o, inventoryOk) && !Aborts(o, inventoryOk, Last(plan)))
  }

  /** The fail-fast execution of a plan: its steps are invoked in order and
      the first one that aborts is the last one invoked. The last step of a
      plan is invoked exactly when all steps before it completed. */
  function RunPlan(plan: seq<Step>, o: Oracle, inventoryOk: bool): seq<Step>
    decreases |plan|
  {
    if plan == [] then []
    else if Completes(Front(plan), o, inventoryOk) then plan
    else RunPlan(Front(plan), o, inventoryOk)
  }

  /** Completes says that no step aborts. */
  lemma {:induction false} CompletesIff(plan: seq<Step>, o: Oracle, inventoryOk: bool)
    ensures Completes(plan, o, inventoryOk) <==>
            forall i :: 0 <= i < |plan| ==> !Aborts(o, inventoryOk, plan[i])
    decreases |plan|
  {
    if plan != [] {
      var f := Front(plan);
      CompletesIff(f, o, inventoryOk);
      assert forall i :: 0 <= i < |f| ==> f[i] == plan[i];
    }
  }

  /** Appending one step to a plan. */
  lemma RunPlanSnoc(a: seq<Step>, x: Step, o: Oracle, inventoryOk: bool)
    ensures RunPlan(a + [x], o, inventoryOk) ==
            if Completes(a, o, inventoryOk) then a + [x] else RunPlan(a, o, inventoryOk)
    ensures Completes(a + [x], o, inventoryOk) <==> Completes(a, o, inventoryOk) && !Aborts(o, inventoryOk, x)
  {
    assert Front(a + [x]) == a;
  }

  /** A run is a prefix of its plan that stops only at an aborting step: it is
      the whole plan when the plan completes, and otherwise ends with the
      first step that aborts. */
  lemma {:induction false} RunPlanShape(plan: seq<Step>, o: Oracle, inventoryOk: bool)
    ensures |RunPlan(plan, o, inventoryOk)| <= |plan|
    ensures RunPlan(plan, o, inventoryOk) == plan[..|RunPlan(plan, o, inventoryOk)|]
    ensures FailFast(o, inventoryOk, RunPlan(plan, o, inventoryOk))
    ensures Completes(plan, o, inventoryOk) ==> RunPlan(plan, o, inventoryOk) == plan
    ensures !Completes(plan, o, inventoryOk) ==>
              RunPlan(plan, o, inventoryOk) != [] &&
              Aborts(o, inventoryOk, Last(RunPlan(plan, o, inventoryOk)))
    decreases |plan|
  {
    if plan != [] {
      var f := Front(plan);
      if Completes(f, o, inventoryOk) {
        CompletesIff(f, o, inventoryOk);
        assert forall i :: 0 <= i < |f| ==> f[i] == plan[i];
      } else {
        RunPlanShape(f, o, inventoryOk);
        var r := RunPlan(f, o, inventoryOk);
        assert r == f[..|r|];
        assert f[..|r|] == plan[..|r|];
      }
    }
  }

  /** Whether update_inventory reports success for `config` on this run. */
  predicate InventoryOk(config: seq<VmEntry>, o: Oracle) {
    InventoryOf(config, o.writeOk).Succeeded()
  }

  /** The image query, followed by a build when the image is absent. */
  function BuildPlan(o: Oracle): seq<Step> {
    if o.imageExists then [QueryImage] else [QueryImage, BuildImage]
  }

  function ConnectivityPlan(skipConnectivityTest: bool): seq<Step> {
    if skipConnectivityTest then [] else [TestConnectivity]
  }

  /** The docker setup, chosen when the docker check failed and setup is on. */
  function SetupPlan(o: Oracle, setupDockerFirst: bool): seq<Step> {
    if !o.dockerPresent && setupDockerFirst then [SetupDocker] else []
  }

  /** The plan of deploy up to the inventory write. */
  function WrittenPlan(o: Oracle): seq<Step> {
    BuildPlan(o) + [WriteInventory]
  }

  /** ... then the optional connectivity test. */
  function ConnectedPlan(o: Oracle, skipConnectivityTest: bool): seq<Step> {
    WrittenPlan(o) + ConnectivityPlan(skipConnectivityTest)
  }

  /** ... then the docker check and the optional setup. */
  function PreparedPlan(o: Oracle, skipConnectivityTest: bool, setupDockerFirst: bool): seq<Step> {
    ConnectedPlan(o, skipConnectivityTest) + [CheckDocker] + SetupPlan(o, setupDockerFirst)
  }

  /** The steps deploy goes through when none of them aborts. */
  function DeployPlan(o: Oracle, skipConnectivityTest: bool, setupDockerFirst: bool): seq<Step> {
    PreparedPlan(o, skipConnectivityTest, setupDockerFirst) + [RunDeployment]
  }

  /** The steps setup_docker_only goes through when none of them aborts. */
  function SetupOnlyPlan(o: Oracle): seq<Step> {
    WrittenPlan(o) + [TestConnectivity] + [SetupDocker]
  }

  /** The build stage always runs to its end: the query never aborts and the
      build, if any, is its last step. */
  lemma BuildPlanRuns(o: Oracle, inventoryOk: bool)
    ensures RunPlan(BuildPlan(o), o, inventoryOk) == BuildPlan(o)
    ensures Completes(BuildPlan(o), o, inventoryOk) <==> o.imageExists || o.buildOk
  {
    assert Front([QueryImage]) == [];
    if !o.imageExists {
      RunPlanSnoc([QueryImage], BuildImage, o, inventoryOk);
    }
  }

  /** build_ansible_container: query the image; build it only when absent. */
  method BuildAnsibleContainer(o: Oracle) returns (ok: bool, trace: seq<Step>)
    ensures trace == BuildPlan(o)
    ensures trace[0] == QueryImage && (BuildImage in trace <==> !o.imageExists)
    ensures ok <==> o.imageExists || o.buildOk
  {
    trace := [QueryImage];
    if o.imageExists {
      return true, trace;
    }
    trace := trace + [BuildImage];
    ok := o.buildOk;
  }

  /** What a flow returns: the boolean deploy.py returns and the steps it invoked. */
  datatype Run = Run(ok: bool, trace: seq<Step>)

  /** The outcome of deploy, branch by branch. */
  function DeployRun(o: Oracle, inventoryOk: bool, skipConnectivityTest: bool, setupDockerFirst: bool): Run {
    if !(o.imageExists || o.buildOk) then Run(false, BuildPlan(o))
    else if !inventoryOk then Run(false, WrittenPlan(o))
    else if !skipConnectivityTest && !o.pingOk then Run(false, ConnectedPlan(o, skipConnectivityTest))
    else if !o.dockerPresent && setupDockerFirst && !o.setupOk then
      Run(false, PreparedPlan(o, skipConnectivityTest, setupDockerFirst))
    else Run(o.deployOk, PreparedPlan(o, skipConnectivityTest, setupDockerFirst) + [RunDeployment])
  }

  /** The outcome of setup_docker_only, branch by branch. */
  function SetupOnlyRun(o: Oracle, inventoryOk: bool): Run {
    var written := WrittenPlan(o);
    if !(o.imageExists || o.buildOk) then Run(false, BuildPlan(o))
    else if !inventoryOk then Run(false, written)
    else if !o.pingOk then Run(false, written + [TestConnectivity])
    else Run(o.setupOk, written + [TestConnectivity] + [SetupDocker])
  }

  /** deploy: build, inventory, optional connectivity test, docker check,
      docker setup when the check failed and setup is enabled, deployment. */
  method Deploy(config: seq<VmEntry>, o: Oracle, skipConnectivityTest: bool, setupDockerFirst: bool)
    returns (ok: bool, trace: seq<Step>)
    ensures Run(ok, trace) == DeployRun(o, InventoryOk(config, o), skipConnectivityTest, setupDockerFirst)
  {
    var built;
    built, trace := BuildAnsibleContainer(o);
    if !built {
      return false, trace;
    }
    var inventory := UpdateInventory(config, o.writeOk);
    trace := trace + [WriteInventory];
    if !inventory.Succeeded() {
      return false, trace;
    }
    if !skipConnectivityTest {
      trace := trace + [TestConnectivity];
      if !o.pingOk {
        return false, trace;
      }
    } else {
      assert trace + ConnectivityPlan(skipConnectivityTest) == trace;
    }
    trace := trace + [CheckDocker];
    var dockerAvailable := o.dockerPresent;
    if !dockerAvailable && setupDockerFirst {
      trace := trace + [SetupDocker];
      if !o.setupOk {
        return false, trace;
      }
    } else if !dockerAvailable && !setupDockerFirst {
      // the permissive branch: deployment goes ahead without docker
      assert trace + SetupPlan(o, setupDockerFirst) == trace;
    } else {
      assert trace + SetupPlan(o, setupDockerFirst) == trace;
    }
    trace := trace + [RunDeployment];
    ok := o.deployOk;
  }

  /** setup_docker_only: build, inventory, connectivity and docker setup,
      with no flag to skip any of them. */
  method SetupDockerOnly(config: seq<VmEntry>, o: Oracle) returns (ok: bool, trace: seq<Step>)
    ensures Run(ok, trace) == SetupOnlyRun(o, InventoryOk(config, o))
  {
    var built;
    built, trace := BuildAnsibleContainer(o);
    if !built {
      return false, trace;
    }
    var inventory := UpdateInventory(config, o.writeOk);
    trace := trace + [WriteInventory];
    if !inventory.Succeeded() {
      return false, trace;
    }
    trace := trace + [TestConnectivity];
    if !o.pingOk {
      return false, trace;
    }
    trace := trace + [SetupDocker];
    ok := o.setupOk;
  }

  /** The stages of deploy's plan, run one after the other. */
  lemma WrittenPlanRuns(o: Oracle, inventoryOk: bool)
    ensures Completes(WrittenPlan(o), o, inventoryOk) <==> (o.imageExists || o.buildOk) && inventoryOk
    ensures RunPlan(WrittenPlan(o), o, inventoryOk) ==
            if o.imageExists || o.buildOk then WrittenPlan(o) else BuildPlan(o)
  {
    BuildPlanRuns(o, inventoryOk);
    RunPlanSnoc(BuildPlan(o), WriteInventory, o, inventoryOk);
  }

  lemma ConnectedPlanRuns(o: Oracle, inventoryOk: bool, skipConnectivityTest: bool)
    ensures var w := WrittenPlan(o);
      && (Completes(ConnectedPlan(o, skipConnectivityTest), o, inventoryOk) <==>
          Completes(w, o, inventoryOk) && (skipConnectivityTest || o.pingOk))
      && RunPlan(ConnectedPlan(o, skipConnectivityTest), o, inventoryOk) ==
         if Completes(w, o, inventoryOk) then ConnectedPlan(o, skipConnectivityTest) else RunPlan(w, o, inventoryOk)
  {
    if skipConnectivityTest {
      assert ConnectedPlan(o, skipConnectivityTest) == WrittenPlan(o);
    } else {
      RunPlanSnoc(WrittenPlan(o), TestConnectivity, o, inventoryOk);
    }
  }

  lemma PreparedPlanRuns(o: Oracle, inventoryOk: bool, skipConnectivityTest: bool, setupDockerFirst: bool)
    ensures var c := ConnectedPlan(o, skipConnectivityTest);
      && (Completes(PreparedPlan(o, skipConnectivityTest, setupDockerFirst), o, inventoryOk) <==>
          Completes(c, o, inventoryOk) && (o.dockerPresent || !setupDockerFirst || o.setupOk))
      && RunPlan(PreparedPlan(o, skipConnectivityTest, setupDockerFirst), o, inventoryOk) ==
         if Completes(c, o, inventoryOk) then PreparedPlan(o, skipConnectivityTest, setupDockerFirst)
         else RunPlan(c, o, inventoryOk)
  {
    var checked := ConnectedPlan(o, skipConnectivityTest) + [CheckDocker];
    RunPlanSnoc(ConnectedPlan(o, skipConnectivityTest), CheckDocker, o, inventoryOk);
    if SetupPlan(o, setupDockerFirst) == [] {
      assert PreparedPlan(o, skipConnectivityTest, setupDockerFirst) == checked;
    } else {
      RunPlanSnoc(checked, SetupDocker, o, inventoryOk);
    }
  }

  /** deploy is the fail-fast run of its plan: the branches of DeployRun are
      exactly the points where a step of DeployPlan aborts. */
  lemma DeployRunIsFailFast(o: Oracle, inventoryOk: bool, skipConnectivityTest: bool, setupDockerFirst: bool)
    ensures DeployRun(o, inventoryOk, skipConnectivityTest, setupDockerFirst) ==
            Run(Completes(DeployPlan(o, skipConnectivityTest, setupDockerFirst), o, inventoryOk),
                RunPlan(DeployPlan(o, skipConnectivityTest, setupDockerFirst), o, inventoryOk))
  {
    var prepared := PreparedPlan(o, skipConnectivityTest, setupDockerFirst);
    WrittenPlanRuns(o, inventoryOk);
    ConnectedPlanRuns(o, inventoryOk, skipConnectivityTest);
    PreparedPlanRuns(o, inventoryOk, skipConnectivityTest, setupDockerFirst);
    RunPlanSnoc(prepared, RunDeployment, o, inventoryOk);
  }

  /** setup_docker_only is the fail-fast run of its plan. */
  lemma SetupOnlyRunIsFailFast(o: Oracle, inventoryOk: bool)
    ensures SetupOnlyRun(o, inventoryOk) ==
            Run(Completes(SetupOnlyPlan(o), o, inventoryOk), RunPlan(SetupOnlyPlan(o), o, inventoryOk))
  {
    WrittenPlanRuns(o, inventoryOk);
    RunPlanSnoc(WrittenPlan(o), TestConnectivity, o, inventoryOk);
    RunPlanSnoc(WrittenPlan(o) + [TestConnectivity], SetupDocker, o, inventoryOk);
  }

  /** A step ranked after every step of an ordered trace extends it in order. */
  lemma OrderedSnoc(a: seq<Step>, x: Step)
    requires InPipelineOrder(a)
    requires forall i :: 0 <= i < |a| ==> Rank(a[i]) < Rank(x)
    ensures InPipelineOrder(a + [x])
  {
    var ax := a + [x];
    forall i, j | 0 <= i < j < |ax| ensures Rank(ax[i]) < Rank(ax[j]) {
      assert ax[i] == a[i];
    }
  }

  /** deploy's plan lists its steps in pipeline order and never contains the
      verification step. */
  lemma DeployPlanInOrder(o: Oracle, skipConnectivityTest: bool, setupDockerFirst: bool)
    ensures InPipelineOrder(DeployPlan(o, skipConnectivityTest, setupDockerFirst))
    ensures VerifyDeployment !in DeployPlan(o, skipConnectivityTest, setupDockerFirst)
  {
    var c, s := ConnectivityPlan(skipConnectivityTest), SetupPlan(o, setupDockerFirst);
    var written := BuildPlan(o) + [WriteInventory];
    var checked := written + c + [CheckDocker];
    assert InPipelineOrder(written);
    if !skipConnectivityTest {
      OrderedSnoc(written, TestConnectivity);
    } else {
      assert written + c == written;
    }
    OrderedSnoc(written + c, CheckDocker);
    if s != [] {
      OrderedSnoc(checked, SetupDocker);
    } else {
      assert checked + s == checked;
    }
    OrderedSnoc(checked + s, RunDeployment);
  }

  /** setup_docker_only's plan lists its steps in pipeline order and has no
      docker check, no deployment and no verification. */
  lemma SetupOnlyPlanInOrder(o: Oracle)
    ensures InPipelineOrder(SetupOnlyPlan(o))
    ensures CheckDocker !in SetupOnlyPlan(o) && RunDeployment !in SetupOnlyPlan(o)
    ensures VerifyDeployment !in SetupOnlyPlan(o)
  {
    var written := WrittenPlan(o);
    assert InPipelineOrder(written);
    OrderedSnoc(written, TestConnectivity);
    OrderedSnoc(written + [TestConnectivity], SetupDocker);
  }

  /** The run of an ordered plan that starts with the image query is again
      ordered, starts with the query, and holds no step the plan lacks. */
  lemma RunOfOrderedPlan(plan: seq<Step>, o: Oracle, inventoryOk: bool)
    requires plan != [] && plan[0] == QueryImage
    requires InPipelineOrder(plan)
    ensures var t := RunPlan(plan, o, inventoryOk);
      && t != [] && t[0] == QueryImage
      && InPipelineOrder(t)
      && FailFast(o, inventoryOk, t)
      && (Last(t) == Last(plan) || Aborts(o, inventoryOk, Last(t)))
      && forall x :: x in t ==> x in plan
  {
    RunPlanShape(plan, o, inventoryOk);
    var t := RunPlan(plan, o, inventoryOk);
    assert forall i :: 0 <= i < |t| ==> t[i] == plan[i];
  }

  /** deploy invokes its steps in pipeline order, starting with the image
      query, stops at the first step that aborts, ends either there or with
      the deployment, and never invokes verify_deployment. */
  lemma DeployOrderAndFailFast(o: Oracle, inventoryOk: bool, skipConnectivityTest: bool, setupDockerFirst: bool)
    ensures var t := DeployRun(o, inventoryOk, skipConnectivityTest, setupDockerFirst).trace;
      && t != [] && t[0] == QueryImage
      && InPipelineOrder(t)
      && FailFast(o, inventoryOk, t)
      && (Last(t) == RunDeployment || Aborts(o, inventoryOk, Last(t)))
      && VerifyDeployment !in t
  {
    DeployRunIsFailFast(o, inventoryOk, skipConnectivityTest, setupDockerFirst);
    DeployPlanInOrder(o, skipConnectivityTest, setupDockerFirst);
    RunOfOrderedPlan(DeployPlan(o, skipConnectivityTest, setupDockerFirst), o, inventoryOk);
  }

  /** deploy returns True exactly when run_deployment was invoked and
      succeeded. */
  lemma DeployResult(o: Oracle, inventoryOk: bool, skipConnectivityTest: bool, setupDockerFirst: bool)
    ensures var r := DeployRun(o, inventoryOk, skipConnectivityTest, setupDockerFirst);
      r.ok <==> RunDeployment in r.trace && o.deployOk
  {
  }

  /** Which steps deploy invokes before the docker check: the build only for
      a missing image, the inventory only after a usable image, the
      connectivity test only when not skipped. */
  lemma DeployGating(o: Oracle, inventoryOk: bool, skipConnectivityTest: bool, setupDockerFirst: bool)
    ensures var t := DeployRun(o, inventoryOk, skipConnectivityTest, setupDockerFirst).trace;
      && (BuildImage in t <==> !o.imageExists)
      && (WriteInventory in t <==> o.imageExists || o.buildOk)
      && (TestConnectivity in t <==> WriteInventory in t && inventoryOk && !skipConnectivityTest)
  {
  }

  /** Which steps deploy invokes from the docker check on: the check after a
      written inventory and a passed (or skipped) connectivity test, the setup
      only when the check failed and setup is on, the deployment unless that
      setup failed; a failed check with setup off still goes on to the
      deployment. */
  lemma DeployDockerGating(o: Oracle, inventoryOk: bool, skipConnectivityTest: bool, setupDockerFirst: bool)
    ensures var t := DeployRun(o, inventoryOk, skipConnectivityTest, setupDockerFirst).trace;
      && (CheckDocker in t <==> (o.imageExists || o.buildOk) && inventoryOk && (skipConnectivityTest || o.pingOk))
      && (SetupDocker in t <==> CheckDocker in t && !o.dockerPresent && setupDockerFirst)
      && (RunDeployment in t <==> CheckDocker in t && (o.dockerPresent || !setupDockerFirst || o.setupOk))
      && (CheckDocker in t && !o.dockerPresent && !setupDockerFirst ==> RunDeployment in t)
  {
  }

  /** With every step succeeding and the connectivity test on, deploy returns
      True after exactly the steps build, inventory, connectivity, docker
      check and deployment (the image already present). */
  lemma DeployAllSucceed(o: Oracle, setupDockerFirst: bool)
    requires o.imageExists && o.pingOk && o.dockerPresent && o.deployOk
    ensures DeployRun(o, true, false, setupDockerFirst) ==
            Run(true, [QueryImage, WriteInventory, TestConnectivity, CheckDocker, RunDeployment])
  {
  }

  /** setup_docker_only invokes its steps in pipeline order, starting with
      the image query, stops at the first that aborts, ends either there or
      with the docker setup, and never invokes the docker check, the
      deployment or the verification. */
  lemma SetupOnlyOrderAndFailFast(o: Oracle, inventoryOk: bool)
    ensures var t := SetupOnlyRun(o, inventoryOk).trace;
      && t != [] && t[0] == QueryImage
      && InPipelineOrder(t)
      && FailFast(o, inventoryOk, t)
      && (Last(t) == SetupDocker || Aborts(o, inventoryOk, Last(t)))
      && CheckDocker !in t && RunDeployment !in t && VerifyDeployment !in t
  {
    SetupOnlyRunIsFailFast(o, inventoryOk);
    SetupOnlyPlanInOrder(o);
    RunOfOrderedPlan(SetupOnlyPlan(o), o, inventoryOk);
  }

  /** setup_docker_only returns True exactly when the setup was invoked and
      succeeded; the connectivity test runs only after a built image and a
      written inventory, the setup only after a successful test. */
  lemma SetupOnlyGating(o: Oracle, inventoryOk: bool)
    ensures var r := SetupOnlyRun(o, inventoryOk);
      && (r.ok <==> SetupDocker in r.trace && o.setupOk)
      && (WriteInventory in r.trace <==> o.imageExists || o.buildOk)
      && (TestConnectivity in r.trace <==> WriteInventory in r.trace && inventoryOk)
      && (SetupDocker in r.trace <==> TestConnectivity in r.trace && o.pingOk)
  {
  }

  /** deploy_dmap_application: deploy with the connectivity test and the
      docker setup both enabled. */
  method DeployDmapApplication(config: seq<VmEntry>, o: Oracle) returns (ok: bool, trace: seq<Step>)
    ensures Run(ok, trace) == DeployRun(o, InventoryOk(config, o), false, true)
  {
    ok, trace := Deploy(config, o, false, true);
  }

  /** The mapping the command line uses when no configuration file is given. */
  const DefaultConfig: seq<VmEntry> := [
    VmEntry("vm1", ["54.226.239.194", "ubuntu", "postgres"]),
    VmEntry("vm2", ["18.207.127.165", "ubuntu", "neo4j"]),
    VmEntry("vm3", ["3.83.229.79", "ubuntu", "kafka"]),
    VmEntry("vm4", ["54.167.120.93", "ubuntu", "backend"])
  ]

  /** The default mapping yields the inventory with one host per role. */
  lemma DefaultConfigInventory(writeOk: bool)
    ensures Deployable(DefaultConfig)
    ensures InventoryOf(DefaultConfig, writeOk).WriteAttempted()
    ensures InventoryOf(DefaultConfig, writeOk).doc.all.children == map[
              Backend := Group(map["vm4" := HostVars("54.167.120.93", "ubuntu")]),
              Postgres := Group(map["vm1" := HostVars("54.226.239.194", "ubuntu")]),
              Neo4j := Group(map["vm2" := HostVars("18.207.127.165", "ubuntu")]),
              Kafka := Group(map["vm3" := HostVars("3.83.229.79", "ubuntu")])]
  {
    var c := DefaultConfig;
    assert c[..3][..2][..1][..0] == [];
    assert RoleMapOf(c[..3][..2][..1]) == Success(map[Postgres := HostOf(c[0])]);
    assert RoleMapOf(c[..3][..2]) == Success(map[Postgres := HostOf(c[0]), Neo4j := HostOf(c[1])]);
    assert RoleMapOf(c[..3]) ==
           Success(map[Postgres := HostOf(c[0]), Neo4j := HostOf(c[1]), Kafka := HostOf(c[2])]);
    assert RoleMapOf(c) == Success(map[Postgres := HostOf(c[0]), Neo4j := HostOf(c[1]),
                                       Kafka := HostOf(c[2]), Backend := HostOf(c[3])]);
    InventoryWrittenIff(c, writeOk);
  }

  /** The command-line options. */
  datatype CliArgs = CliArgs(
    vmConfigFile: Option<string>,
    skipConnectivity: bool,
    skipDockerSetup: bool,
    dockerSetupOnly: bool)

  /** A configuration file was named: an empty path counts as none, as the
      main tests the option for truthiness. */
  predicate ConfigFileGiven(args: CliArgs) {
    args.vmConfigFile.Some? && args.vmConfigFile.value != ""
  }

  /** The flow the command line selects for `config`. */
  function CliRun(args: CliArgs, config: seq<VmEntry>, o: Oracle): Run {
    if args.dockerSetupOnly then SetupOnlyRun(o, InventoryOk(config, o))
    else DeployRun(o, InventoryOk(config, o), args.skipConnectivity, !args.skipDockerSetup)
  }

  /** main: `loaded` is what reading and parsing the named configuration file
      gave (None when that raised); it is ignored when no file is named.
      Returns the process exit code. */
  method RunCommandLine(args: CliArgs, loaded: Option<seq<VmEntry>>, o: Oracle)
    returns (exitCode: int, trace: seq<Step>)
    ensures exitCode == 0 || exitCode == 1
    ensures ConfigFileGiven(args) && loaded.None? ==> exitCode == 1 && trace == []
    ensures ConfigFileGiven(args) && loaded.Some? ==>
              Run(exitCode == 0, trace) == CliRun(args, loaded.value, o)
    ensures !ConfigFileGiven(args) ==> Run(exitCode == 0, trace) == CliRun(args, DefaultConfig, o)
    ensures args == CliArgs(None, false, false, false) &&
            o.imageExists && o.writeOk && o.pingOk && o.dockerPresent && o.deployOk ==>
              exitCode == 0 &&
              trace == [QueryImage, WriteInventory, TestConnectivity, CheckDocker, RunDeployment]
  {
    var config;
    if ConfigFileGiven(args) {
      if loaded.None? {
        return 1, [];
      }
      config := loaded.value;
    } else {
      config := DefaultConfig;
      DefaultConfigInventory(o.writeOk);
      InventoryWrittenIff(config, o.writeOk);
    }
    var success;
    if args.dockerSetupOnly {
      success, trace := SetupDockerOnly(config, o);
    } else {
      success, trace := Deploy(config, o, args.skipConnectivity, !args.skipDockerSetup);
    }
    exitCode := if success then 0 else 1;
  }
}
