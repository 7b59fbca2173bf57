/** How the plans of the two provisioning scripts relate to each other. */
module Variants {

  import opened Runner
  import SetupScript
  import InstallScript
  import Paths

  /** install.py installs no toolchain and runs neither a sanity check nor the verification of setup.py. */
  lemma InstallHasNoToolchainOrVerification(root: string, noNvdiffrast: bool, nvdiffrastPresent: bool)
    ensures var plan := InstallScript.Plan(root, noNvdiffrast, nvdiffrastPresent);
      forall i :: 0 <= i < |plan| ==>
        plan[i] !in {SetupScript.INSTALL_GXX, SetupScript.INSTALL_CUDA, SetupScript.NVCC_CHECK,
                     SetupScript.TORCH_CHECK, SetupScript.VERIFY}
  {
    var plan := InstallScript.Plan(root, noNvdiffrast, nvdiffrastPresent);
    InstallScript.PlanShape(root, noNvdiffrast, nvdiffrastPresent);
    var checks := {SetupScript.INSTALL_GXX, SetupScript.INSTALL_CUDA, SetupScript.NVCC_CHECK,
                   SetupScript.TORCH_CHECK, SetupScript.VERIFY};
    forall i | 0 <= i < |plan|
      ensures plan[i] !in checks
    {
      forall t | t in checks
        ensures plan[i] != t
      {
        StepsDiffer(root, plan[i], t);
      }
    }
  }

  /**
   * A command of install.py against a toolchain install, check or
   * verification of setup.py: the clone starts differently, the environment
   * creation differs at `conda env` against `conda run`, and the builds run
   * `bash -c` where setup.py has `conda install` or `bash -lc`.
   */
  lemma StepsDiffer(root: string, s: Step, t: Step)
    requires s in {InstallScript.CreateEnv(root), InstallScript.EditableBuild(InstallScript.RasterizerDir(root)),
                   InstallScript.EditableBuild(InstallScript.SimpleKnnDir(root)), InstallScript.Clone(root),
                   InstallScript.NvdiffrastBuild(root)}
    requires t in {SetupScript.INSTALL_GXX, SetupScript.INSTALL_CUDA, SetupScript.NVCC_CHECK,
                   SetupScript.TORCH_CHECK, SetupScript.VERIFY}
    ensures s != t
  {
    SetupCommandHeads();
    InstallCommandHeads(root);
  }

  lemma SetupCommandHeads()
    ensures forall cmd, cwd :: SetupScript.InEnv(cmd, cwd).cmd[0] == 'c'
    ensures forall cmd, cwd :: SetupScript.InEnv(cmd, cwd).cmd[6] == 'r'
    ensures forall cmd, cwd :: SetupScript.InEnv(cmd, cwd).cmd[19] == 'b'
    ensures forall cmd, cwd :: SetupScript.InEnv(cmd, cwd).cmd[25] == 'l'
    ensures forall channel, packages :: SetupScript.CondaInstall(channel, packages).cmd[0] == 'c'
    ensures forall channel, packages :: SetupScript.CondaInstall(channel, packages).cmd[6] == 'r'
    ensures forall channel, packages :: SetupScript.CondaInstall(channel, packages).cmd[19] == 'c'
  {
  }

  lemma InstallCommandHeads(root: string)
    ensures InstallScript.Clone(root).cmd[0] == 'g'
    ensures InstallScript.CreateEnv(root).cmd[6] == 'e'
    ensures forall dir :: InstallScript.EditableBuild(dir).cmd[19] == 'b' && InstallScript.EditableBuild(dir).cmd[25] == 'c'
    ensures InstallScript.NvdiffrastBuild(root).cmd[19] == 'b' && InstallScript.NvdiffrastBuild(root).cmd[25] == 'c'
  {
  }

  /** Both scripts build the rasterizer, simple-knn and nvdiffrast in the same directories. */
  lemma SameBuildDirectories(root: string)
    ensures InstallScript.RasterizerDir(root) == SetupScript.RasterizerDir(root)
    ensures InstallScript.SimpleKnnDir(root) == SetupScript.SimpleKnnDir(root)
    ensures InstallScript.NvdiffrastDir(root) == SetupScript.NvdiffrastDir(root)
  {
    var sub := "gaussian_splatting/submodules";
    Paths.JoinTwice(root, "gaussian_splatting", "submodules");
    assert "gaussian_splatting" + "/" + "submodules" == sub;
    Paths.JoinTwice(root, sub, "diff-gaussian-rasterization");
    assert sub + "/" + "diff-gaussian-rasterization" == "gaussian_splatting/submodules/" + "diff-gaussian-rasterization";
    Paths.JoinTwice(root, sub, "simple-knn");
    assert sub + "/" + "simple-knn" == "gaussian_splatting/submodules/" + "simple-knn";
  }

}
