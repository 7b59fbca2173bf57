/**
 * setup.py: create the `sugar` conda environment, pin the compiler and CUDA
 * toolkit inside it, check them, build the two editable CUDA extensions,
 * optionally fetch and build nvdiffrast, and run a final verification, all
 * through the fail-fast `run`. The plan is a pure function of the flag and of
 * whether the nvdiffrast directory exists; `Provision` is the straight-line
 * `main`, proved to issue exactly what `Runner.Execute` says of that plan.
 */
module SetupScript {

  import opened Wrappers
  import opened Runner
  import Paths
  import Text

  /*
   * The command strings are written as concatenations of short pieces (the
   * text is the same as the source's literals): the pieces name the parts a
   * property talks about, and the verifier reads individual characters only
   * of short literals.
   */

  /** Every command that acts inside the environment starts this way. */
  const CONDA_RUN := "conda run -n sugar "

  /** `in_env`: run `cmd` inside the `sugar` environment under a login bash. */
  const IN_ENV_PREFIX := CONDA_RUN + "bash -lc '"
  const IN_ENV_SUFFIX := "'"

  function InEnv(cmd: string, cwd: Option<string>): Step
  {
    Step(IN_ENV_PREFIX + cmd + IN_ENV_SUFFIX, cwd)
  }

  /** The command `in_env` was given, if `cmd` is an `in_env` command at all. */
  function Unwrap(cmd: string): Option<string>
  {
    Text.Strip(cmd, IN_ENV_PREFIX, IN_ENV_SUFFIX)
  }

  /** The toolchain variables every build re-exports, since each `in_env` starts a fresh shell. */
  const EXPORTS := "\n" + EXPORT_LINES
  const EXPORT_LINES := "export CUDA_HOME=\"$CONDA_PREFIX\";\nexport PATH=\"$CUDA_HOME/bin:$PATH\";\nexport CC=\"$(which x86_64-conda-linux-gnu-gcc || which gcc)\";\nexport CXX=\"$(which x86_64-conda-linux-gnu-g++ || which g++)\";\nexport NVCC_APPEND_FLAGS=\"--compiler-bindir=$CXX\";\n"

  /** The nvcc probe: its last alternative `true` makes the inner command succeed whether or not nvcc is found. */
  const NVCC_PROBE := "which nvcc && nvcc -V" + " || true"

  /** A Python script fed to `python -` through a here-document. */
  const HEREDOC := "python - <<PY\n"
  const TORCH_PROBE := HEREDOC + "import torch, os\nprint(\"torch:\", torch.__version__)\nprint(\"torch.version.cuda:\", torch.version.cuda)\nprint(\"CUDA_HOME:\", os.environ.get(\"CUDA_HOME\"))\nPY"
  const VERIFY_SCRIPT := HEREDOC + "import torch, os\nprint('CUDA available:', torch.cuda.is_available())\nprint('Device count:', torch.cuda.device_count())\nprint('torch.version.cuda:', torch.version.cuda)\nprint('CUDA_HOME:', os.environ.get('CUDA_HOME'))\nPY"
  const EDITABLE_INSTALL := "pip install -e ."
  const STANDARD_INSTALL := "pip install ."

  /** `conda install -y -c <channel> <packages>` run inside the environment, with exactly pinned versions. */
  function CondaInstall(channel: string, packages: string): Step
  {
    Step(CONDA_RUN + "conda install -y -c " + channel + " " + packages, None)
  }

  const NVDIFFRAST_REPO := "https://github.com/NVlabs/nvdiffrast"

  const CREATE_ENV := Step("conda env create -f environment.yml", None)
  const INSTALL_GXX := CondaInstall("conda-forge", "gxx_linux-64=11.2.0")
  const INSTALL_CUDA := CondaInstall("\"nvidia/label/cuda-11.8.0\"", "cuda-toolkit=11.8.0 cuda-nvcc=11.8.89")
  const NVCC_CHECK := InEnv(EXPORTS + NVCC_PROBE, None)
  const TORCH_CHECK := InEnv(TORCH_PROBE, None)
  const CLONE := Step("git clone --depth=1 " + NVDIFFRAST_REPO + " nvdiffrast", None)
  const VERIFY := InEnv(EXPORTS + VERIFY_SCRIPT, None)

  function RasterizerDir(root: string): string
  {
    Paths.Join(Paths.Join(Paths.Join(root, "gaussian_splatting"), "submodules"), "diff-gaussian-rasterization")
  }

  function SimpleKnnDir(root: string): string
  {
    Paths.Join(Paths.Join(Paths.Join(root, "gaussian_splatting"), "submodules"), "simple-knn")
  }

  function NvdiffrastDir(root: string): string
  {
    Paths.Join(root, "nvdiffrast")
  }

  /** An editable `pip install -e .` of the extension in `dir`. */
  function EditableBuild(dir: string): Step
  {
    InEnv(EXPORTS + EDITABLE_INSTALL, Some(dir))
  }

  function NvdiffrastBuild(root: string): Step
  {
    InEnv(EXPORTS + STANDARD_INSTALL, Some(NvdiffrastDir(root)))
  }

  /** The optional part: nothing with `--no_nvdiffrast`, else the clone when the directory is missing, then the build. */
  function NvdiffrastSteps(root: string, noNvdiffrast: bool, nvdiffrastPresent: bool): seq<Step>
  {
    if noNvdiffrast then []
    else (if nvdiffrastPresent then [] else [CLONE]) + [NvdiffrastBuild(root)]
  }

  /** The commands `main` issues, in order, when every one of them succeeds. */
  function Plan(root: string, noNvdiffrast: bool, nvdiffrastPresent: bool): (r: seq<Step>)
  {
    [CREATE_ENV, INSTALL_GXX, INSTALL_CUDA, NVCC_CHECK, TORCH_CHECK,
     EditableBuild(RasterizerDir(root)), EditableBuild(SimpleKnnDir(root))]
    + NvdiffrastSteps(root, noNvdiffrast, nvdiffrastPresent)
    + [VERIFY]
  }

  /** Where each command sits in the plan, for each setting of the flag and of the directory's presence. */
  lemma PlanShape(root: string, noNvdiffrast: bool, nvdiffrastPresent: bool)
    ensures var plan := Plan(root, noNvdiffrast, nvdiffrastPresent);
      && |plan| == 8 + |NvdiffrastSteps(root, noNvdiffrast, nvdiffrastPresent)|
      && plan[0] == CREATE_ENV && plan[1] == INSTALL_GXX && plan[2] == INSTALL_CUDA
      && plan[3] == NVCC_CHECK && plan[4] == TORCH_CHECK
      && plan[5] == EditableBuild(RasterizerDir(root)) && plan[6] == EditableBuild(SimpleKnnDir(root))
      && plan[|plan| - 1] == VERIFY
      && (!noNvdiffrast && !nvdiffrastPresent ==> plan[7] == CLONE && plan[8] == NvdiffrastBuild(root))
      && (!noNvdiffrast && nvdiffrastPresent ==> plan[7] == NvdiffrastBuild(root))
  {
    var head := [CREATE_ENV, INSTALL_GXX, INSTALL_CUDA, NVCC_CHECK, TORCH_CHECK,
                 EditableBuild(RasterizerDir(root)), EditableBuild(SimpleKnnDir(root))];
    var opt := NvdiffrastSteps(root, noNvdiffrast, nvdiffrastPresent);
    Layout(head, opt, VERIFY);
  }

  /** Where the parts of `head + opt + [last]` sit, for any steps at all. */
  lemma Layout(head: seq<Step>, opt: seq<Step>, last: Step)
    ensures var plan := head + opt + [last];
      && |plan| == |head| + |opt| + 1 && plan[|plan| - 1] == last
      && (forall i :: 0 <= i < |head| ==> plan[i] == head[i])
      && (forall i :: 0 <= i < |opt| ==> plan[|head| + i] == opt[i])
  {
  }

  /** A step sent through `in_env` whose command starts with the exports block. */
  predicate CarriesExports(s: Step)
  {
    var inner := Unwrap(s.cmd);
    inner.Some? && EXPORTS <= inner.value
  }

  /**
   * `main` after `os.chdir(repo_root)`: each command through `run`, stopping
   * at the first failure with FAILURE_STATUS; `pathExists` answers
   * `nvd_path.exists()`.
   */
  method Provision(p: Process, root: string, noNvdiffrast: bool, pathExists: string -> bool) returns (status: int)
    requires p.variant == SetupPy && p.Valid()
    modifies p
    ensures p.Valid()
    ensures var r := Execute(SetupPy, Plan(root, noNvdiffrast, pathExists(NvdiffrastDir(root))), p.exitCode, old(p.spawned));
      p.trace == old(p.trace) + r.trace && status == r.status
  {
    ghost var plan := Plan(root, noNvdiffrast, pathExists(NvdiffrastDir(root)));
    ghost var n0, t0 := p.spawned, p.trace;
    ghost var done: seq<Event> := [];
    assert plan[0..] == plan;
    PlanShape(root, noNvdiffrast, pathExists(NvdiffrastDir(root)));
    var ok: bool;

    ok, done := Toolchain(p, plan, n0, t0, done);
    if !ok { return FAILURE_STATUS; }
    ok, done := Extensions(p, root, noNvdiffrast, pathExists, plan, n0, t0, done);
    if !ok { return FAILURE_STATUS; }
    ok, done := RunNext(p, VERIFY, plan, |plan| - 1, n0, t0, done);
    if !ok { return FAILURE_STATUS; }
    Completed(p, plan, n0, t0, done);
    return 0;
  }

  /** The environment, then step 1/3 of `main`: the compiler and toolkit installs and their two checks. */
  method Toolchain(p: Process, ghost plan: seq<Step>, ghost n0: nat, ghost t0: seq<Event>, ghost done: seq<Event>)
    returns (ok: bool, ghost done': seq<Event>)
    requires OnTrack(p, plan, n0, t0, done, 0) && |plan| > 5
    requires plan[0] == CREATE_ENV && plan[1] == INSTALL_GXX && plan[2] == INSTALL_CUDA
    requires plan[3] == NVCC_CHECK && plan[4] == TORCH_CHECK
    modifies p
    ensures ok ==> OnTrack(p, plan, n0, t0, done', 5)
    ensures !ok ==> Aborted(p, plan, n0, t0)
  {
    ok, done' := RunNext(p, CREATE_ENV, plan, 0, n0, t0, done);
    if !ok { return; }
    ok, done' := RunNext(p, INSTALL_GXX, plan, 1, n0, t0, done');
    if !ok { return; }
    ok, done' := RunNext(p, INSTALL_CUDA, plan, 2, n0, t0, done');
    if !ok { return; }
    ok, done' := RunNext(p, NVCC_CHECK, plan, 3, n0, t0, done');
    if !ok { return; }
    ok, done' := RunNext(p, TORCH_CHECK, plan, 4, n0, t0, done');
  }

  /** Step 2/3 of `main`: the two submodule builds, then nvdiffrast unless skipped, cloned first when missing. */
  method Extensions(p: Process, root: string, noNvdiffrast: bool, pathExists: string -> bool,
                    ghost plan: seq<Step>, ghost n0: nat, ghost t0: seq<Event>, ghost done: seq<Event>)
    returns (ok: bool, ghost done': seq<Event>)
    requires OnTrack(p, plan, n0, t0, done, 5)
    requires |plan| == 8 + |NvdiffrastSteps(root, noNvdiffrast, pathExists(NvdiffrastDir(root)))|
    requires plan[5] == EditableBuild(RasterizerDir(root)) && plan[6] == EditableBuild(SimpleKnnDir(root))
    requires !noNvdiffrast && !pathExists(NvdiffrastDir(root)) ==> plan[7] == CLONE && plan[8] == NvdiffrastBuild(root)
    requires !noNvdiffrast && pathExists(NvdiffrastDir(root)) ==> plan[7] == NvdiffrastBuild(root)
    modifies p
    ensures ok ==> OnTrack(p, plan, n0, t0, done', |plan| - 1)
    ensures !ok ==> Aborted(p, plan, n0, t0)
  {
    var dgrPath := RasterizerDir(root);
    ok, done' := RunNext(p, EditableBuild(dgrPath), plan, 5, n0, t0, done);
    if !ok { return; }
    var sknnPath := SimpleKnnDir(root);
    ok, done' := RunNext(p, EditableBuild(sknnPath), plan, 6, n0, t0, done');
    if !ok { return; }

    if !noNvdiffrast {
      var k := 7;
      if !pathExists(NvdiffrastDir(root)) {
        ok, done' := RunNext(p, CLONE, plan, k, n0, t0, done');
        k := k + 1;
        if !ok { return; }
      }
      ok, done' := RunNext(p, NvdiffrastBuild(root), plan, k, n0, t0, done');
    }
  }

  /** `in_env` hands its command to the environment unchanged, wrapped in `conda run -n sugar bash -lc '…'`, and keeps the cwd. */
  lemma {:induction false} InEnvWraps(cmd: string, cwd: Option<string>)
    ensures InEnv(cmd, cwd).cmd == "conda run -n sugar bash -lc '" + cmd + "'"
    ensures InEnv(cmd, cwd).cwd == cwd
    ensures Unwrap(InEnv(cmd, cwd).cmd) == Some(cmd)
  {
    Text.StripWrapped(IN_ENV_PREFIX, cmd, IN_ENV_SUFFIX);
  }

  /** The commands `run` issues directly are not `in_env` commands. */
  lemma NotInEnv(s: Step)
    requires s in {CREATE_ENV, INSTALL_GXX, INSTALL_CUDA, CLONE}
    ensures Unwrap(s.cmd).None?
    ensures !CarriesExports(s)
  {
    var pre := IN_ENV_PREFIX;
    if s == CREATE_ENV {
      assert s.cmd[6] != pre[6];
    } else if s == INSTALL_GXX || s == INSTALL_CUDA {
      assert s.cmd[19] == 'c' && pre[19] == 'b';
    } else {
      assert s.cmd[0] == 'g';
    }
    assert !(pre <= s.cmd);
  }

  /**
   * The exports block is re-sent with the nvcc check, every build and the
   * verification, and with nothing else: not with the torch check and not
   * with the commands issued outside the environment.
   */
  lemma ExportsExactly(root: string, noNvdiffrast: bool, nvdiffrastPresent: bool)
    ensures var plan := Plan(root, noNvdiffrast, nvdiffrastPresent);
      forall i :: 0 <= i < |plan| ==>
        (CarriesExports(plan[i]) <==> plan[i] !in {CREATE_ENV, INSTALL_GXX, INSTALL_CUDA, TORCH_CHECK, CLONE})
  {
    var plan := Plan(root, noNvdiffrast, nvdiffrastPresent);
    PlanShape(root, noNvdiffrast, nvdiffrastPresent);
    forall i | 0 <= i < |plan|
      ensures CarriesExports(plan[i]) <==> plan[i] !in {CREATE_ENV, INSTALL_GXX, INSTALL_CUDA, TORCH_CHECK, CLONE}
    {
      var s := plan[i];
      if s in {CREATE_ENV, INSTALL_GXX, INSTALL_CUDA, CLONE} {
        NotInEnv(s);
      } else if s == TORCH_CHECK {
        InEnvWraps(TORCH_PROBE, None);
        assert TORCH_PROBE[0] != EXPORTS[0];
      } else {
        ghost var rest: string :| s == InEnv(EXPORTS + rest, s.cwd) by {
          assert i == 3 || i == 5 || i == 6 || i == |plan| - 1 || (i == 7 && !noNvdiffrast) || (i == 8 && !noNvdiffrast && !nvdiffrastPresent);
        }
        InEnvWraps(EXPORTS + rest, s.cwd);
      }
    }
  }

  /** The three builds: the two submodules editable in their own directories, nvdiffrast a standard install in its clone. */
  lemma BuildModes(root: string)
    ensures Unwrap(EditableBuild(RasterizerDir(root)).cmd) == Some(EXPORTS + "pip install -e .")
    ensures EditableBuild(RasterizerDir(root)).cwd == Some(Paths.Join(root, "gaussian_splatting/submodules" + "/" + "diff-gaussian-rasterization"))
    ensures Unwrap(EditableBuild(SimpleKnnDir(root)).cmd) == Some(EXPORTS + "pip install -e .")
    ensures EditableBuild(SimpleKnnDir(root)).cwd == Some(Paths.Join(root, "gaussian_splatting/submodules" + "/" + "simple-knn"))
    ensures Unwrap(NvdiffrastBuild(root).cmd) == Some(EXPORTS + "pip install .")
    ensures NvdiffrastBuild(root).cwd == Some(Paths.Join(root, "nvdiffrast"))
  {
    Paths.JoinTwice(root, "gaussian_splatting", "submodules");
    assert "gaussian_splatting" + "/" + "submodules" == "gaussian_splatting/submodules";
    Paths.JoinTwice(root, "gaussian_splatting/submodules", "diff-gaussian-rasterization");
    Paths.JoinTwice(root, "gaussian_splatting/submodules", "simple-knn");
    InEnvWraps(EXPORTS + EDITABLE_INSTALL, Some(RasterizerDir(root)));
    InEnvWraps(EXPORTS + EDITABLE_INSTALL, Some(SimpleKnnDir(root)));
    InEnvWraps(EXPORTS + STANDARD_INSTALL, Some(NvdiffrastDir(root)));
  }

  /** The nvcc sanity check's inner command is the exports followed by a probe that ends in `|| true`. */
  lemma NvccCheckEndsInOrTrue()
    ensures Unwrap(NVCC_CHECK.cmd).Some?
    ensures Text.Strip(Unwrap(NVCC_CHECK.cmd).value, EXPORTS, " || true") == Some("which nvcc && nvcc -V")
  {
    InEnvWraps(EXPORTS + NVCC_PROBE, None);
    assert EXPORTS + NVCC_PROBE == EXPORTS + "which nvcc && nvcc -V" + " || true";
    Text.StripWrapped(EXPORTS, "which nvcc && nvcc -V", " || true");
  }

  /** What tells the commands apart: the clone alone starts with `g`, and the standard install is shorter than the editable one. */
  lemma CommandHeads(root: string)
    ensures CLONE.cmd[0] == 'g'
    ensures CREATE_ENV.cmd[0] == 'c' && INSTALL_GXX.cmd[0] == 'c' && INSTALL_CUDA.cmd[0] == 'c'
    ensures forall cmd, cwd :: InEnv(cmd, cwd).cmd[0] == 'c'
    ensures forall dir :: |EditableBuild(dir).cmd| == |NvdiffrastBuild(root).cmd| + 3
  {
  }

  /** The clone is planned exactly when the flag is unset and the directory is missing. */
  lemma CloneInPlan(root: string, noNvdiffrast: bool, nvdiffrastPresent: bool)
    ensures CLONE in Plan(root, noNvdiffrast, nvdiffrastPresent) <==> !noNvdiffrast && !nvdiffrastPresent
  {
    CommandHeads(root);
  }

  /** The nvdiffrast build is planned exactly when the flag is unset. */
  lemma NvdiffrastBuildInPlan(root: string, noNvdiffrast: bool, nvdiffrastPresent: bool)
    ensures NvdiffrastBuild(root) in Plan(root, noNvdiffrast, nvdiffrastPresent) <==> !noNvdiffrast
  {
    CommandHeads(root);
  }

  /**
   * `--no_nvdiffrast` removes exactly the clone and the nvdiffrast build:
   * neither is issued, whatever the directory holds, and the steps before
   * and after them are those of the plan without the flag.
   */
  lemma SkipNvdiffrast(root: string, nvdiffrastPresent: bool)
    ensures var skipped := Plan(root, true, nvdiffrastPresent);
      && |skipped| == 8
      && Plan(root, false, nvdiffrastPresent) == skipped[..7] + NvdiffrastSteps(root, false, nvdiffrastPresent) + skipped[7..]
      && CLONE !in skipped && NvdiffrastBuild(root) !in skipped
      && skipped == Plan(root, true, !nvdiffrastPresent)
  {
    var skipped := Plan(root, true, nvdiffrastPresent);
    var head := [CREATE_ENV, INSTALL_GXX, INSTALL_CUDA, NVCC_CHECK, TORCH_CHECK,
                 EditableBuild(RasterizerDir(root)), EditableBuild(SimpleKnnDir(root))];
    assert skipped == head + [VERIFY];
    assert skipped[..7] == head && skipped[7..] == [VERIFY];
    CloneInPlan(root, true, nvdiffrastPresent);
    NvdiffrastBuildInPlan(root, true, nvdiffrastPresent);
  }

  /**
   * Without the flag, the clone is issued if and only if the nvdiffrast
   * directory is missing, and then just before the build; the build is
   * issued either way, just before the verification.
   */
  lemma CloneOnlyIfAbsent(root: string, nvdiffrastPresent: bool)
    ensures var plan := Plan(root, false, nvdiffrastPresent);
      && (CLONE in plan <==> !nvdiffrastPresent)
      && NvdiffrastBuild(root) in plan
      && plan[|plan| - 2] == NvdiffrastBuild(root)
      && (!nvdiffrastPresent ==> plan[|plan| - 3] == CLONE)
  {
    var plan := Plan(root, false, nvdiffrastPresent);
    PlanShape(root, false, nvdiffrastPresent);
    CloneInPlan(root, false, nvdiffrastPresent);
  }

  /**
   * The full run: with the flag unset, nvdiffrast not yet cloned and every
   * command succeeding, the commands are issued once each in this order and
   * the script exits 0.
   */
  lemma FullRun(root: string, exitCode: ExitOracle, n: nat)
    requires forall j :: 0 <= j < |Plan(root, false, false)| ==> exitCode(n + j, Plan(root, false, false)[j]) == 0
    ensures var r := Execute(SetupPy, Plan(root, false, false), exitCode, n);
      && Issued(r.trace) == [CREATE_ENV, INSTALL_GXX, INSTALL_CUDA, NVCC_CHECK, TORCH_CHECK,
                             EditableBuild(RasterizerDir(root)), EditableBuild(SimpleKnnDir(root)),
                             CLONE, NvdiffrastBuild(root), VERIFY]
      && r.status == 0
  {
    AllSucceed(SetupPy, Plan(root, false, false), exitCode, n);
  }

  /**
   * A failing rasterizer build: the environment, the toolchain and the two
   * sanity checks have run, the build is issued and nothing after it; the
   * script exits non-zero.
   */
  lemma RasterizerBuildFails(root: string, noNvdiffrast: bool, nvdiffrastPresent: bool, exitCode: ExitOracle, n: nat)
    requires forall j :: 0 <= j < 5 ==> exitCode(n + j, Plan(root, noNvdiffrast, nvdiffrastPresent)[j]) == 0
    requires exitCode(n + 5, EditableBuild(RasterizerDir(root))) != 0
    ensures var r := Execute(SetupPy, Plan(root, noNvdiffrast, nvdiffrastPresent), exitCode, n);
      && Issued(r.trace) == [CREATE_ENV, INSTALL_GXX, INSTALL_CUDA, NVCC_CHECK, TORCH_CHECK, EditableBuild(RasterizerDir(root))]
      && r.status != 0
  {
    var plan := Plan(root, noNvdiffrast, nvdiffrastPresent);
    PlanShape(root, noNvdiffrast, nvdiffrastPresent);
    StopsAt(SetupPy, plan, exitCode, n, 5);
  }

}
