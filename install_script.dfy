/**
 * install.py: create the `sugar` conda environment from the project's
 * environment file, build the two editable CUDA extensions, and optionally
 * fetch and build nvdiffrast, all through the fail-fast `run_command`. There
 * is no toolchain install and no verification step. As for setup.py, the plan
 * is a pure function of the flag and of whether the nvdiffrast directory
 * exists, and `Provision` is the straight-line `main`.
 */
module InstallScript {

  import opened Wrappers
  import opened Runner
  import Paths
  import Text

  /** `run_in_sugar` */
  const RUN_IN_SUGAR := "conda run -n sugar"

  /** What `bash -c` runs for a build: the toolkit location taken from the environment, then pip. */
  const PIP_PREFIX := "bash -c 'CUDA_HOME=$CONDA_PREFIX "
  const PIP_SUFFIX := "'"

  /** `pip_build_editable` and `pip_build_standard` */
  const PIP_BUILD_EDITABLE := PIP_PREFIX + "pip install -e ." + PIP_SUFFIX
  const PIP_BUILD_STANDARD := PIP_PREFIX + "pip install ." + PIP_SUFFIX

  const NVDIFFRAST_REPO := "https://github.com/NVlabs/nvdiffrast"

  /** The environment file, single-quoted, created with the project root as cwd. */
  function CreateEnv(root: string): Step
  {
    Step("conda env create -f '" + Paths.Join(root, "environment.yml") + "'", Some(root))
  }

  function RasterizerDir(root: string): string
  {
    Paths.Join(root, "gaussian_splatting/submodules/" + "diff-gaussian-rasterization")
  }

  function SimpleKnnDir(root: string): string
  {
    Paths.Join(root, "gaussian_splatting/submodules/" + "simple-knn")
  }

  function NvdiffrastDir(root: string): string
  {
    Paths.Join(root, "nvdiffrast")
  }

  /** `f"{run_in_sugar} {pip_build_editable}"` in `dir` */
  function EditableBuild(dir: string): Step
  {
    Step(RUN_IN_SUGAR + " " + PIP_BUILD_EDITABLE, Some(dir))
  }

  function NvdiffrastBuild(root: string): Step
  {
    Step(RUN_IN_SUGAR + " " + PIP_BUILD_STANDARD, Some(NvdiffrastDir(root)))
  }

  function Clone(root: string): Step
  {
    Step("git clone " + NVDIFFRAST_REPO, Some(root))
  }

  /** The optional part: nothing with `--no_nvdiffrast`, else the clone when the directory is missing, then the build. */
  function NvdiffrastSteps(root: string, noNvdiffrast: bool, nvdiffrastPresent: bool): seq<Step>
  {
    if noNvdiffrast then []
    else (if nvdiffrastPresent then [] else [Clone(root)]) + [NvdiffrastBuild(root)]
  }

  /** The commands `main` issues, in order, when every one of them succeeds. */
  function Plan(root: string, noNvdiffrast: bool, nvdiffrastPresent: bool): seq<Step>
  {
    [CreateEnv(root), EditableBuild(RasterizerDir(root)), EditableBuild(SimpleKnnDir(root))]
    + NvdiffrastSteps(root, noNvdiffrast, nvdiffrastPresent)
  }

  /** Where each command sits in the plan, for each setting of the flag and of the directory's presence. */
  lemma PlanShape(root: string, noNvdiffrast: bool, nvdiffrastPresent: bool)
    ensures var plan := Plan(root, noNvdiffrast, nvdiffrastPresent);
      && |plan| == 3 + |NvdiffrastSteps(root, noNvdiffrast, nvdiffrastPresent)|
      && plan[0] == CreateEnv(root)
      && plan[1] == EditableBuild(RasterizerDir(root)) && plan[2] == EditableBuild(SimpleKnnDir(root))
      && (noNvdiffrast ==> |plan| == 3)
      && (!noNvdiffrast && !nvdiffrastPresent ==> |plan| == 5 && plan[3] == Clone(root) && plan[4] == NvdiffrastBuild(root))
      && (!noNvdiffrast && nvdiffrastPresent ==> |plan| == 4 && plan[3] == NvdiffrastBuild(root))
  {
    var head := [CreateEnv(root), EditableBuild(RasterizerDir(root)), EditableBuild(SimpleKnnDir(root))];
    var opt := NvdiffrastSteps(root, noNvdiffrast, nvdiffrastPresent);
    var plan := head + opt;
    assert forall i :: 0 <= i < |opt| ==> plan[3 + i] == opt[i];
  }

  /**
   * `main`: each command through `run_command`, stopping at the first
   * failure with exit status 1; `pathExists` answers `nvdiffrast_dir.exists()`.
   */
  method Provision(p: Process, root: string, noNvdiffrast: bool, pathExists: string -> bool) returns (status: int)
    requires p.variant == InstallPy && p.Valid()
    modifies p
    ensures p.Valid()
    ensures var r := Execute(InstallPy, Plan(root, noNvdiffrast, pathExists(NvdiffrastDir(root))), p.exitCode, old(p.spawned));
      p.trace == old(p.trace) + r.trace && status == r.status
  {
    ghost var plan := Plan(root, noNvdiffrast, pathExists(NvdiffrastDir(root)));
    ghost var n0, t0 := p.spawned, p.trace;
    ghost var done: seq<Event>, k := [], 0;
    assert plan[0..] == plan;
    PlanShape(root, noNvdiffrast, pathExists(NvdiffrastDir(root)));
    var ok: bool;

    var environmentFile := Paths.Join(root, "environment.yml");
    ok, done := RunNext(p, Step("conda env create -f '" + environmentFile + "'", Some(root)), plan, k, n0, t0, done);
    k := k + 1;
    if !ok { return FAILURE_STATUS; }

    var rasterizerDir := RasterizerDir(root);
    ok, done := RunNext(p, Step(RUN_IN_SUGAR + " " + PIP_BUILD_EDITABLE, Some(rasterizerDir)), plan, k, n0, t0, done);
    k := k + 1;
    if !ok { return FAILURE_STATUS; }
    var simpleKnnDir := SimpleKnnDir(root);
    ok, done := RunNext(p, Step(RUN_IN_SUGAR + " " + PIP_BUILD_EDITABLE, Some(simpleKnnDir)), plan, k, n0, t0, done);
    k := k + 1;
    if !ok { return FAILURE_STATUS; }

    if !noNvdiffrast {
      var nvdiffrastDir := NvdiffrastDir(root);
      if !pathExists(nvdiffrastDir) {
        ok, done := RunNext(p, Step("git clone " + NVDIFFRAST_REPO, Some(root)), plan, k, n0, t0, done);
        k := k + 1;
        if !ok { return FAILURE_STATUS; }
      }
      ok, done := RunNext(p, Step(RUN_IN_SUGAR + " " + PIP_BUILD_STANDARD, Some(nvdiffrastDir)), plan, k, n0, t0, done);
      k := k + 1;
      if !ok { return FAILURE_STATUS; }
    }

    Completed(p, plan, n0, t0, done);
    return 0;
  }

  /** The environment file's path goes into the command single-quoted, and the command runs in the project root. */
  lemma CreateEnvQuoted(root: string)
    ensures Text.Strip(CreateEnv(root).cmd, "conda env create -f '", "'") == Some(Paths.Join(root, "environment.yml"))
    ensures CreateEnv(root).cwd == Some(root)
  {
    Text.StripWrapped("conda env create -f '", Paths.Join(root, "environment.yml"), "'");
  }

  /**
   * Every build runs `pip` under `bash -c` inside the environment with
   * CUDA_HOME set to the environment's prefix: editable for the two
   * submodules in their own directories, a standard install for nvdiffrast.
   */
  lemma BuildCommands(root: string)
    ensures var wrap := RUN_IN_SUGAR + " " + PIP_PREFIX;
      && Text.Strip(EditableBuild(RasterizerDir(root)).cmd, wrap, "'") == Some("pip install -e .")
      && Text.Strip(EditableBuild(SimpleKnnDir(root)).cmd, wrap, "'") == Some("pip install -e .")
      && Text.Strip(NvdiffrastBuild(root).cmd, wrap, "'") == Some("pip install .")
    ensures EditableBuild(RasterizerDir(root)).cwd == Some(RasterizerDir(root))
    ensures EditableBuild(SimpleKnnDir(root)).cwd == Some(SimpleKnnDir(root))
    ensures NvdiffrastBuild(root).cwd == Some(NvdiffrastDir(root))
  {
    var wrap := RUN_IN_SUGAR + " " + PIP_PREFIX;
    Text.StripWrapped(wrap, "pip install -e .", "'");
    assert EditableBuild(RasterizerDir(root)).cmd == wrap + "pip install -e ." + "'";
    Text.StripWrapped(wrap, "pip install .", "'");
    assert NvdiffrastBuild(root).cmd == wrap + "pip install ." + "'";
  }

  /** The nvdiffrast build is none of the other steps: its command is the only standard install. */
  lemma NvdiffrastBuildDistinct(root: string, s: Step)
    requires s in {CreateEnv(root), EditableBuild(RasterizerDir(root)), EditableBuild(SimpleKnnDir(root)), Clone(root)}
    ensures s != NvdiffrastBuild(root)
  {
    var b := NvdiffrastBuild(root).cmd;
    if s == CreateEnv(root) {
      assert s.cmd[6] == 'e' && b[6] == 'r';
    } else if s == Clone(root) {
      assert s.cmd[0] == 'g' && b[0] == 'c';
    } else {
      var k := |RUN_IN_SUGAR| + 1 + |PIP_PREFIX| + 12;
      assert s.cmd[k] == '-' && b[k] == '.';
    }
  }

  /** The clone is none of the other steps: every other command starts with `conda`. */
  lemma CloneDistinct(root: string, s: Step)
    requires s in {CreateEnv(root), EditableBuild(RasterizerDir(root)), EditableBuild(SimpleKnnDir(root)), NvdiffrastBuild(root)}
    ensures s != Clone(root)
  {
    assert s.cmd[0] == 'c';
    assert Clone(root).cmd[0] == 'g';
  }

  /**
   * `--no_nvdiffrast` removes exactly the clone and the nvdiffrast build:
   * neither is issued, whatever the directory holds, and the steps before
   * them are those of the plan without the flag.
   */
  lemma SkipNvdiffrast(root: string, nvdiffrastPresent: bool)
    ensures var skipped := Plan(root, true, nvdiffrastPresent);
      && Plan(root, false, nvdiffrastPresent) == skipped + NvdiffrastSteps(root, false, nvdiffrastPresent)
      && Clone(root) !in skipped && NvdiffrastBuild(root) !in skipped
      && skipped == Plan(root, true, !nvdiffrastPresent)
  {
    var skipped := Plan(root, true, nvdiffrastPresent);
    PlanShape(root, true, nvdiffrastPresent);
    forall i | 0 <= i < |skipped|
      ensures skipped[i] != Clone(root) && skipped[i] != NvdiffrastBuild(root)
    {
      CloneDistinct(root, skipped[i]);
      NvdiffrastBuildDistinct(root, skipped[i]);
    }
  }

  /**
   * Without the flag, the clone is issued if and only if the nvdiffrast
   * directory is missing, and then just before the build; the build is
   * issued either way, as the last step.
   */
  lemma CloneOnlyIfAbsent(root: string, nvdiffrastPresent: bool)
    ensures var plan := Plan(root, false, nvdiffrastPresent);
      && (Clone(root) in plan <==> !nvdiffrastPresent)
      && plan[|plan| - 1] == NvdiffrastBuild(root)
      && (!nvdiffrastPresent ==> plan[|plan| - 2] == Clone(root))
  {
    var plan := Plan(root, false, nvdiffrastPresent);
    PlanShape(root, false, nvdiffrastPresent);
    if nvdiffrastPresent {
      forall i | 0 <= i < |plan|
        ensures plan[i] != Clone(root)
      {
        CloneDistinct(root, plan[i]);
      }
    }
  }

  /**
   * When every command succeeds, every planned step is issued exactly once,
   * in order, and the script completes with status 0.
   */
  lemma FullRun(root: string, exitCode: ExitOracle, n: nat)
    requires forall j :: 0 <= j < |Plan(root, false, false)| ==> exitCode(n + j, Plan(root, false, false)[j]) == 0
    ensures var r := Execute(InstallPy, Plan(root, false, false), exitCode, n);
      && Issued(r.trace) == [CreateEnv(root), EditableBuild(RasterizerDir(root)), EditableBuild(SimpleKnnDir(root)),
                             Clone(root), NvdiffrastBuild(root)]
      && r.status == 0
  {
    AllSucceed(InstallPy, Plan(root, false, false), exitCode, n);
  }

  /**
   * Whatever exit code the failing child had, the script reports that code
   * for that command as its last act and exits with status 1, having issued
   * nothing after it.
   */
  lemma FailureExitsWithOne(root: string, noNvdiffrast: bool, nvdiffrastPresent: bool, exitCode: ExitOracle, n: nat, k: nat)
    requires FirstFailure(Plan(root, noNvdiffrast, nvdiffrastPresent), exitCode, n) == Some(k)
    ensures var plan := Plan(root, noNvdiffrast, nvdiffrastPresent);
      var r := Execute(InstallPy, plan, exitCode, n);
      && k < |plan|
      && r.status == 1
      && Issued(r.trace) == plan[..k + 1]
      && r.trace[|r.trace| - 1] == Report(plan[k].cmd, exitCode(n + k, plan[k]))
  {
    var plan := Plan(root, noNvdiffrast, nvdiffrastPresent);
    AbortsAtFirstFailure(InstallPy, plan, exitCode, n, k);
    ReportsFailure(InstallPy, plan, exitCode, n, k);
  }

}
