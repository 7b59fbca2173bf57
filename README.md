# SuGaR provisioning orchestrator, modelled in Dafny

This project models the provisioning scripts of the SuGaR repository. They
create the `sugar` conda environment, install a pinned compiler and CUDA
toolkit into it (`setup.py` only), and build the CUDA extensions
diff-gaussian-rasterization and simple-knn in editable mode. They can also
clone and build nvdiffrast, and `setup.py` ends with a verification script.
Both scripts stop at the first command that exits non-zero. The project also
models the `CUDA_HOME` resolution at the top of the rasterizer's own build
script.

Modules:

- `Runner` (`runner.dfy`): the fail-fast runner shared by both scripts
  (`run` in `setup.py`, `run_command` in `install.py`). A run is a trace of
  events: the command echoed, the child started, the failure reported. Child
  exit codes come from an oracle `(n, step) -> int`, where `n` counts the
  children started before. `Execute` is the reference semantics of issuing a
  plan. `Process` is the orchestrator as a class whose `Run` appends to the
  trace.
- `SetupScript` (`setup_script.dfy`) and `InstallScript`
  (`install_script.dfy`): each has a pure `Plan(root, noNvdiffrast,
  nvdiffrastPresent)` giving the commands and working directories of `main`.
  Each has a straight-line `Provision` method that mirrors `main` command by
  command and is proved to produce exactly `Execute(Plan(...))`. The lemmas
  state the properties of the plans.
- `Variants` (`variants.dfy`): how the two plans relate to each other.
- `CudaHome` (`cuda_home.dfy`): `_has_nvcc`, the fallback to the `nvcc`
  on the PATH, `os.environ.setdefault`, and the nvcc include flag.
- `Paths`, `Text`, `Wrappers`: `os.path.join`/`dirname` on POSIX strings,
  stripping a fixed wrapper off a string, `str`/`int` of an integer, and
  `Option`.

Parameters stand in for the outside world. `pathExists` answers
`Path.exists`/`os.path.exists`. `which` is the result of
`shutil.which("nvcc")`. `root` is the resolved directory of the script. The
exit-code oracle stands in for every child process.

## Model

| member | source | states |
|---|---|---|
| Runner.Process.Run | setup.py:7-11 | echoes the command, starts exactly one child and appends exactly one step to the issued log; answers false (so the caller ends the run) iff the child's exit code is non-zero, in which case a failure report follows |
| Runner.EchoLine | setup.py:8 | the line echoed before a command ends with that command (`\n$ <cmd>` here, `[CMD] <cmd>` at install.py:10); `Runner.LinesNameCommand` reads the command back |
| Runner.FailureLine | install.py:20-23 | setup.py's failure line (setup.py:11) ends with the command; install.py's holds the command right after `Error: Command '`, closed by a quote, and then the exit code, which `Runner.LinesNameCommand` reads back |
| Runner.Execute | setup.py:7-11 | issuing a plan through `run` (or `run_command`, install.py:8-24) ends with status 0 or 1 and nothing else; `Runner.CompletesWithoutFailure` and `Runner.AbortsAtFirstFailure` tie it to `Runner.FirstFailure`: every step in order when none fails, else exactly the steps up to the first failing one, then status 1 |
| Runner.LinesNameCommand | install.py:10-23 | the echo line names the command; the failure line names the command, and in install.py also the child's exit code, which can be read back exactly |
| Runner.EchoBeforeSpawn | setup.py:8-9 | every command started was echoed immediately before it was started |
| Runner.FirstFailure | setup.py:9-11 | the index it returns is a failing step and every step before it succeeds; with no index, every step succeeds |
| Runner.CompletesWithoutFailure | install.py:11-18 | when no child fails, every step of the plan is issued exactly once, in order, and the status is 0 |
| Runner.AbortsAtFirstFailure | setup.py:10-11 | when step k is the first to fail, exactly steps 0..k are issued, in order, and the orchestrator exits with status 1 |
| Runner.ReportsFailure | install.py:19-24 | the last event of an aborted run is the report of the failing command with that child's exit code |
| Runner.IssuedIsPrefix | setup.py:13-79 | whatever the exit codes, the issued commands are an initial part of the plan, in plan order |
| Runner.AllSucceed | install.py:38-73 | if every child exits 0, the whole plan is issued and the status is 0 |
| Runner.StopsAt | setup.py:10-11 | if steps before k succeed and step k fails, exactly the first k+1 steps are issued and the status is 1 |
| Runner.RunNext | setup.py:7-11 | one `run` call inside a straight-line script: the trace so far stays a prefix of the plan's outcome, and a failure means the plan's whole outcome has been produced |
| SetupScript.InEnv | setup.py:26-27 | `in_env(cmd, cwd)`; what it issues is stated by `SetupScript.InEnvWraps` |
| SetupScript.Plan | setup.py:23-79 | the commands `main` issues, with their working directories, for a given flag and directory presence; their order is stated by `SetupScript.PlanShape`, the optional part by `SetupScript.CloneInPlan`, `SetupScript.NvdiffrastBuildInPlan` and `SetupScript.SkipNvdiffrast` |
| SetupScript.PlanShape | setup.py:23-79 | order of the plan: env create, gxx 11.2.0, cuda-toolkit 11.8.0 with nvcc 11.8.89, nvcc check, torch check, rasterizer build, simple-knn build, [clone], nvdiffrast build, verification |
| SetupScript.Provision | setup.py:13-79 | `main` appends to the trace exactly what `Execute` gives for the plan of the flag and of the directory's presence, and returns that status |
| SetupScript.Toolchain | setup.py:21-47 | the environment creation, both toolchain installs and both checks, in that order: either all five succeed and the script is on track five steps into the plan, or the plan's whole outcome has been written and it is a failure |
| SetupScript.Extensions | setup.py:49-70 | the two editable builds, then (unless `--no_nvdiffrast`) the clone when the directory is missing and the nvdiffrast build: either the script reaches the verification on track, or the plan's whole outcome, a failure, has been written |
| SetupScript.InEnvWraps | setup.py:26-27 | `in_env(cmd, cwd)` issues exactly `conda run -n sugar bash -lc '<cmd>'` with the same cwd, and `cmd` can be recovered from it |
| SetupScript.NotInEnv | setup.py:23-34 | env create, the two installs and the clone are issued directly, not through `in_env`, and carry no exports |
| SetupScript.ExportsExactly | setup.py:36-79 | a step of the plan carries the exports block iff it is the nvcc check, a build or the verification; the torch check does not |
| SetupScript.BuildModes | setup.py:51-69 | rasterizer and simple-knn are built with `pip install -e .` in their submodule directories, nvdiffrast with `pip install .` in its clone |
| SetupScript.NvccCheckEndsInOrTrue | setup.py:45-46 | the nvcc sanity check is the exports followed by a probe ending in `|| true`, so the probe's own result cannot fail the inner command (`conda run` itself still can, through the exit-code oracle) |
| SetupScript.CloneInPlan | setup.py:62-68 | `git clone --depth=1 … nvdiffrast` is in the plan iff `--no_nvdiffrast` is unset and the directory is missing; no other step is that command |
| SetupScript.NvdiffrastBuildInPlan | setup.py:62-69 | the nvdiffrast build (`pip install .` in its clone) is in the plan iff `--no_nvdiffrast` is unset, whether or not the directory exists; no other step is that command |
| SetupScript.SkipNvdiffrast | setup.py:61-70 | with `--no_nvdiffrast`, neither the clone nor the nvdiffrast build is in the plan; the plan without the flag is the same steps with those inserted before the verification |
| SetupScript.CloneOnlyIfAbsent | setup.py:64-69 | without the flag, the clone is planned iff the directory is missing, just before the build; the build is planned either way, just before the verification |
| SetupScript.FullRun | setup.py:21-79 | all commands succeeding: the ten commands are issued once each in declared order and the status is 0 |
| SetupScript.RasterizerBuildFails | setup.py:51-54 | a failing rasterizer build: env create, toolchain and sanity checks, then the build, then nothing; status non-zero |
| InstallScript.PlanShape | install.py:38-69 | order of the plan: env create, rasterizer build, simple-knn build, [clone], nvdiffrast build |
| InstallScript.Plan | install.py:38-69 | the commands `main` issues, with their working directories, for a given flag and directory presence; their order is stated by `InstallScript.PlanShape`, the optional part by `InstallScript.SkipNvdiffrast` and `InstallScript.CloneOnlyIfAbsent` |
| InstallScript.Provision | install.py:27-73 | `main` appends to the trace exactly what `Execute` gives for the plan of the flag and of the directory's presence, and returns that status |
| InstallScript.CreateEnvQuoted | install.py:39-40 | the environment file path appears single-quoted in the env create command, which runs in the project root |
| InstallScript.BuildCommands | install.py:43-69 | every build is `conda run -n sugar bash -c 'CUDA_HOME=$CONDA_PREFIX pip install …'`: `-e .` for the two submodules in their directories, `.` for nvdiffrast in its clone |
| InstallScript.NvdiffrastBuildDistinct | install.py:69 | the nvdiffrast build differs from every other step of the plan |
| InstallScript.CloneDistinct | install.py:65-68 | the clone differs from every other step of the plan |
| InstallScript.SkipNvdiffrast | install.py:59-60 | with `--no_nvdiffrast`, no clone and no nvdiffrast build; the plan without the flag extends it by exactly those steps |
| InstallScript.CloneOnlyIfAbsent | install.py:61-69 | without the flag, `git clone https://github.com/NVlabs/nvdiffrast` (cwd the project root) is planned iff the directory is missing; the build is planned either way, last |
| InstallScript.FullRun | install.py:38-73 | all commands succeeding: the five commands are issued once each, in order, and the run completes with status 0 |
| InstallScript.FailureExitsWithOne | install.py:19-24 | on the first failure the status is 1 whatever the child's code, nothing later is issued, and the last event reports that command and that code |
| Variants.InstallHasNoToolchainOrVerification | install.py:38-73 | no step of install.py's plan is a toolchain install, sanity check or verification of setup.py |
| Variants.SameBuildDirectories | install.py:50-63 | both scripts build in the same three directories |
| CudaHome.SetDefault | gaussian_splatting/submodules/diff-gaussian-rasterization/setup.py:31 | `setdefault` leaves an existing key's value, adds a missing key with the given value, and touches no other key |
| CudaHome.HasNvcc | gaussian_splatting/submodules/diff-gaussian-rasterization/setup.py:18-22 | a missing or empty home has no nvcc; `CudaHome.HasNvccMeans` gives the whole answer |
| CudaHome.Resolve | gaussian_splatting/submodules/diff-gaussian-rasterization/setup.py:25-31 | afterwards `cuda_home` and torch's CUDA_HOME agree; the home changes only when torch's has no nvcc and `which` found one; no environment variable disappears |
| CudaHome.NvccIncludeFlag | gaussian_splatting/submodules/diff-gaussian-rasterization/setup.py:49 | the nvcc flag is an `-I` option; `CudaHome.IncludeFlagNamesGlm` says which directory it names |
| CudaHome.NvccUnder | gaussian_splatting/submodules/diff-gaussian-rasterization/setup.py:22-29 | `join(dir, "bin", "nvcc")` is `dir/bin/nvcc`, and `dirname(dirname(dir/bin/nvcc))` is `dir` |
| CudaHome.HasNvccMeans | gaussian_splatting/submodules/diff-gaussian-rasterization/setup.py:18-22 | `_has_nvcc` is false for None and for the empty string, and otherwise exactly whether `<home>/bin/nvcc` exists, written `<home>bin/nvcc` when the home already ends in '/' |
| CudaHome.KeepsWorkingHome | gaussian_splatting/submodules/diff-gaussian-rasterization/setup.py:25-26 | when torch's CUDA_HOME has nvcc, `cuda_home`, torch's CUDA_HOME and the environment are unchanged |
| CudaHome.NoNvccAnywhere | gaussian_splatting/submodules/diff-gaussian-rasterization/setup.py:27-28 | when `which("nvcc")` finds nothing, nothing is modified |
| CudaHome.FallsBackToPath | gaussian_splatting/submodules/diff-gaussian-rasterization/setup.py:27-31 | with nvcc found at `<dir>/bin/nvcc`, `cuda_home` and torch's CUDA_HOME both become `<dir>`; the environment gets it only if CUDA_HOME was absent |
| CudaHome.EnvironmentOnlyGains | gaussian_splatting/submodules/diff-gaussian-rasterization/setup.py:31 | no existing environment variable is removed or overwritten; the only variable that can be added is CUDA_HOME, with the resolved value |
| CudaHome.ResolveIsStable | gaussian_splatting/submodules/diff-gaussian-rasterization/setup.py:25-31 | when the nvcc found is really at `<dir>/bin/nvcc`, resolving again from the result changes nothing |
| CudaHome.IncludeFlagNamesGlm | gaussian_splatting/submodules/diff-gaussian-rasterization/setup.py:49 | for a script at `<dir>/setup.py` the nvcc flag is exactly `-I<dir>/third_party/glm/`, and `<dir>` can be read back from it |
| Paths.Join | gaussian_splatting/submodules/diff-gaussian-rasterization/setup.py:22 | `os.path.join`: an absolute second part replaces the first, otherwise one '/' separates them unless the first already ends in one; `Paths.DirNameOfChild` and `Paths.JoinTwice` state what it builds |
| Paths.DirName | gaussian_splatting/submodules/diff-gaussian-rasterization/setup.py:29 | `os.path.dirname`: a prefix of its argument that leaves no '/' in the last component; `Paths.DirNameOfChild` shows it undoes `Paths.Join` of a plain name |

## Left out

- Process execution is not modelled: `subprocess.run`, `shell=True`, `/bin/bash`, conda, pip, git and the network. Every child is one call of the exit-code oracle. Output streaming and the lack of timeouts are runtime facts, so a hung child is not modelled either.
- The meaning of the command strings inside the shell is not modelled. This covers here-documents, `$(which …)`, `export` and quoting. The strings are opaque text with the source's exact characters. The verification script of `setup.py` contains single quotes inside the `bash -lc '…'` wrapper. The model issues that string as written and does not say what bash makes of it.
- The file system is not modelled. `Path.exists`/`os.path.exists` are a predicate parameter. `os.chdir(repo_root)` is modelled as data: in `setup.py` a step without a cwd runs in the repository root.
- `Path(__file__).resolve()` and `os.path.abspath` are not modelled; the resolved root directory and the script's absolute path are parameters. `pathlib`'s `/` is modelled as `os.path.join` on the string form of the path.
- `argparse` is modelled only as the boolean `--no_nvdiffrast`.
- The `[INFO]`/`---` progress lines that `main` prints between commands are not modelled. Only the runners' own echo and failure lines are part of the trace.
- In `setup.py`, `SystemExit(message)` prints the message to standard error and exits with status 1. The model records the message as a `Report` event and returns status 1. The same holds for `sys.exit(1)` in `install.py`.
- `setuptools.setup`, `CUDAExtension`/`BuildExtension` and the CUDA/C++ sources of the rasterizer are not modelled: they are library calls and native code. Only the include flag handed to nvcc is. The bare `os.path.dirname(os.path.abspath(__file__))` statement at line 35 has no effect and is not modelled.
- `shutil.which` is not modelled; its result is a parameter. A `which` result that is not of the form `<dir>/bin/nvcc` is still resolved by `CudaHome.Resolve` with `dirname` twice. The lemmas about the fallback state their result only for the `<dir>/bin/nvcc` form.
- `setup.py`'s failure line names only the failing command (`[ERROR] Command failed: <cmd>`), not its exit code. Only `install.py`'s failure line carries the code, and the model keeps that difference.
- `subprocess.run` raising before any child starts is not modelled. This happens when a step's working directory cannot be entered: a missing submodule directory (setup.py:54,59; install.py:51,56), or an `nvdiffrast` that exists but is not a directory, so the clone is skipped and the build's cwd fails (setup.py:69, install.py:69). Neither script catches that exception (install.py:19 catches only `CalledProcessError`): the orchestrator dies with a traceback and status 1, after the echo but with no start of a child and no failure line. In the model every step starts a child and can fail only through the exit-code oracle, so `Runner.Execute` would record a `Spawn` and a `Report` there instead.
