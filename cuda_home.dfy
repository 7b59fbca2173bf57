/**
 * The CUDA_HOME resolution at the top of the diff-gaussian-rasterization
 * build script. torch's idea of the toolkit location is kept when it holds
 * `bin/nvcc`; otherwise the location is derived from the `nvcc` found on the
 * PATH, written back to torch, and put into the process environment unless
 * that already names one. The file system and the PATH search are
 * parameters: `pathExists` answers `os.path.exists`, `which` is what
 * `shutil.which("nvcc")` returned.
 */
module CudaHome {

  import opened Wrappers
  import Paths
  import Text

  const CUDA_HOME_VAR := "CUDA_HOME"

  /** The state the module-level code changes: its own `cuda_home`, torch's `CUDA_HOME` and `os.environ`. */
  datatype Globals = Globals(cudaHome: Option<string>, torchCudaHome: Option<string>, environ: map<string, string>)

  /** `_has_nvcc`: an empty or missing home has no nvcc; otherwise whether `<home>/bin/nvcc` pathExists. */
  predicate HasNvcc(cudaHome: Option<string>, pathExists: string -> bool)
    ensures HasNvcc(cudaHome, pathExists) ==> cudaHome.Some? && cudaHome.value != []
  {
    cudaHome.Some? && cudaHome.value != [] && pathExists(Paths.Join(Paths.Join(cudaHome.value, "bin"), "nvcc"))
  }

  /** `os.environ.setdefault(key, value)`: the map afterwards. */
  function SetDefault(environ: map<string, string>, key: string, value: string): (r: map<string, string>)
    ensures key in r && r[key] == (if key in environ then environ[key] else value)
    ensures forall k :: k != key ==> (k in r <==> k in environ)
    ensures forall k :: k != key && k in environ ==> r[k] == environ[k]
  {
    if key in environ then environ else environ[key := value]
  }

  /** The module-level code, starting from `cuda_home = torch_cpp_extension.CUDA_HOME`. */
  function Resolve(torchCudaHome: Option<string>, pathExists: string -> bool, which: Option<string>, environ: map<string, string>): (r: Globals)
    ensures r.torchCudaHome == r.cudaHome
    ensures r.cudaHome != torchCudaHome ==> !HasNvcc(torchCudaHome, pathExists) && which.Some? && which.value != []
    ensures environ.Keys <= r.environ.Keys
  {
    if HasNvcc(torchCudaHome, pathExists) then Globals(torchCudaHome, torchCudaHome, environ)
    else if which.None? || which.value == [] then Globals(torchCudaHome, torchCudaHome, environ)
    else
      var home := Paths.DirName(Paths.DirName(which.value));
      Globals(Some(home), Some(home), SetDefault(environ, CUDA_HOME_VAR, home))
  }

  /** `<dir>/bin/nvcc` as `os.path.join` builds it, and `dirname` taken twice walks back to `<dir>`. */
  lemma NvccUnder(dir: string)
    requires dir != [] && dir[|dir| - 1] != '/'
    ensures Paths.Join(Paths.Join(dir, "bin"), "nvcc") == dir + "/bin/nvcc"
    ensures Paths.DirName(Paths.DirName(dir + "/bin/nvcc")) == dir
  {
    var b := dir + "/bin";
    assert Paths.Join(dir, "bin") == b by {
      assert dir + "/" + "bin" == b;
    }
    Paths.DirNameOfChild(dir, "bin");
    assert Paths.Join(b, "nvcc") == dir + "/bin/nvcc" by {
      assert b + "/" + "nvcc" == dir + "/bin/nvcc";
    }
    Paths.DirNameOfChild(b, "nvcc");
  }

  /**
   * `_has_nvcc` is false without a home, and otherwise exactly whether
   * `<home>/bin/nvcc` exists, the separator after `home` being added only
   * when `home` does not already end in '/'.
   */
  lemma HasNvccMeans(home: string, pathExists: string -> bool)
    ensures !HasNvcc(None, pathExists) && !HasNvcc(Some(""), pathExists)
    ensures home != [] && home[|home| - 1] != '/' ==> (HasNvcc(Some(home), pathExists) <==> pathExists(home + "/bin/nvcc"))
    ensures home != [] && home[|home| - 1] == '/' ==> (HasNvcc(Some(home), pathExists) <==> pathExists(home + "bin/nvcc"))
  {
    if home != [] && home[|home| - 1] != '/' {
      NvccUnder(home);
    } else if home != [] {
      var b := home + "bin";
      assert Paths.Join(home, "bin") == b;
      assert b[|b| - 1] == 'n';
      assert Paths.Join(b, "nvcc") == home + "bin/nvcc" by {
        assert b + "/" + "nvcc" == home + "bin/nvcc";
      }
    }
  }

  /** When torch's CUDA_HOME already holds nvcc, nothing changes. */
  lemma KeepsWorkingHome(torchCudaHome: Option<string>, pathExists: string -> bool, which: Option<string>, environ: map<string, string>)
    requires HasNvcc(torchCudaHome, pathExists)
    ensures Resolve(torchCudaHome, pathExists, which, environ) == Globals(torchCudaHome, torchCudaHome, environ)
  {
  }

  /** When nvcc is not on the PATH either, nothing changes. */
  lemma NoNvccAnywhere(torchCudaHome: Option<string>, pathExists: string -> bool, environ: map<string, string>)
    ensures Resolve(torchCudaHome, pathExists, None, environ) == Globals(torchCudaHome, torchCudaHome, environ)
    ensures Resolve(torchCudaHome, pathExists, Some(""), environ) == Globals(torchCudaHome, torchCudaHome, environ)
  {
  }

  /**
   * The fallback: with nvcc found at `<dir>/bin/nvcc`, `cuda_home` and torch's
   * CUDA_HOME both become `<dir>`, and the environment gets that value only
   * if it did not name a CUDA_HOME already.
   */
  lemma FallsBackToPath(torchCudaHome: Option<string>, pathExists: string -> bool, dir: string, environ: map<string, string>)
    requires !HasNvcc(torchCudaHome, pathExists)
    requires dir != [] && dir[|dir| - 1] != '/'
    ensures var g := Resolve(torchCudaHome, pathExists, Some(dir + "/bin/nvcc"), environ);
      && g.cudaHome == Some(dir) && g.torchCudaHome == Some(dir)
      && g.environ == (if CUDA_HOME_VAR in environ then environ else environ[CUDA_HOME_VAR := dir])
  {
    NvccUnder(dir);
  }

  /** An existing CUDA_HOME in the environment is never overwritten, and no other variable is touched. */
  lemma EnvironmentOnlyGains(torchCudaHome: Option<string>, pathExists: string -> bool, which: Option<string>, environ: map<string, string>)
    ensures var g := Resolve(torchCudaHome, pathExists, which, environ);
      && (forall k :: k in environ ==> k in g.environ && g.environ[k] == environ[k])
      && (forall k :: k in g.environ && k !in environ ==> k == CUDA_HOME_VAR && Some(g.environ[k]) == g.cudaHome)
  {
  }

  /**
   * Running the resolution again on what it produced changes nothing, once the
   * nvcc that was found is really at `<dir>/bin/nvcc`: the derived home then
   * passes `_has_nvcc` itself.
   */
  lemma {:induction false} ResolveIsStable(torchCudaHome: Option<string>, pathExists: string -> bool, dir: string, environ: map<string, string>)
    requires dir != [] && dir[|dir| - 1] != '/'
    requires pathExists(dir + "/bin/nvcc")
    ensures var g := Resolve(torchCudaHome, pathExists, Some(dir + "/bin/nvcc"), environ);
      Resolve(g.torchCudaHome, pathExists, Some(dir + "/bin/nvcc"), g.environ) == g
  {
    var which := Some(dir + "/bin/nvcc");
    var g := Resolve(torchCudaHome, pathExists, which, environ);
    if !HasNvcc(torchCudaHome, pathExists) {
      FallsBackToPath(torchCudaHome, pathExists, dir, environ);
      NvccUnder(dir);
      assert HasNvcc(g.torchCudaHome, pathExists);
    }
  }

  /** The nvcc include flag: `-I` and the `third_party/glm/` directory beside the build script. */
  function NvccIncludeFlag(setupFile: string): (r: string)
    ensures |r| >= 2 && r[..2] == "-I"
  {
    "-I" + Paths.Join(Paths.DirName(setupFile), "third_party/glm/")
  }

  /** For a build script at `<dir>/setup.py`, the flag names `<dir>/third_party/glm/` and `<dir>` can be read back from it. */
  lemma IncludeFlagNamesGlm(dir: string, setupFile: string)
    requires dir != [] && dir[|dir| - 1] != '/'
    requires setupFile == dir + "/setup.py"
    ensures NvccIncludeFlag(setupFile) == "-I" + dir + "/third_party/glm/"
    ensures Text.Strip(NvccIncludeFlag(setupFile), "-I", "/third_party/glm/") == Some(dir)
  {
    Paths.DirNameOfChild(dir, "setup.py");
    assert dir + "/" + "setup.py" == setupFile;
    assert "-I" + (dir + "/" + "third_party/glm/") == "-I" + dir + "/third_party/glm/";
    Text.StripWrapped("-I", dir, "/third_party/glm/");
  }

}
