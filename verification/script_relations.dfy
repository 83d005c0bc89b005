/**
  How the outputs of the three scripts compare. makekernel.py and
  std-kernel.py both write the module-based kernel; desc-kernel.py writes its
  files from templates instead of line by line, into the same folder as
  std-kernel.py.
 */
module ScriptRelations {
  import opened Wrappers
  import StdKernel
  import MakeKernel
  import DescKernel

  /** Both scripts write the same start_spark.sh for a path and version;
      only std-kernel.py makes it executable. */
  lemma StartupScriptsAgree(path: string, sparkVersion: string)
    ensures var make := MakeKernel.CreateStartupFile(path, sparkVersion);
      var std := StdKernel.CreateStartupFile(path, sparkVersion);
      && make.filename == std.filename
      && make.prints == std.prints
      && !make.ownerRwx && std.ownerRwx
  {
    var make := MakeKernel.CreateStartupFile(path, sparkVersion);
    var std := StdKernel.CreateStartupFile(path, sparkVersion);
    assert make.prints[3] == std.prints[3];
  }

  /** For the same arguments, makekernel.py's kernel.json and std-kernel.py's
      standard kernel.json have the same lines except one: the PYTHONPATH
      value, whose two entries makekernel.py joins with a comma and
      std-kernel.py with a colon. */
  lemma KernelsDifferOnlyInPythonPath(path: string, startupname: string, kernelname: string,
                                      sparkVersion: string, pysparkArgs: string)
    ensures var make := MakeKernel.CreateKernel(path, startupname, kernelname, sparkVersion, pysparkArgs).prints;
      var std := StdKernel.CreateStandardKernel(path, startupname, kernelname, sparkVersion, pysparkArgs).prints;
      var sparkPath := "/global/common/cori/software/spark/" + sparkVersion;
      && |std| == 22
      && std[16] == "    \"" + (sparkPath + "/python:" + sparkPath + "/python/lib/py4j-0.10.4-src.zip") + "\","
      && make == std[16 := "    \"" + (sparkPath + "/python," + sparkPath + "/python/lib/py4j-0.10.4-src.zip") + "\","]
  {
    MakeKernel.KernelPrints(path, startupname, kernelname, sparkVersion, pysparkArgs);
    StdKernel.StandardKernelPrints(path, startupname, kernelname, sparkVersion, pysparkArgs);
  }

  /** makekernel.py's default version is one std-kernel.py builds a
      module kernel for, while std-kernel.py's own default builds the
      Shifter kernel with NERSC's image. */
  lemma DefaultVersions(kernelname: string)
    ensures StdKernel.SelectVariant(None, MakeKernel.DefaultArgs(kernelname).sparkVersion) == StdKernel.Standard
    ensures StdKernel.SelectVariant(StdKernel.DefaultArgs(kernelname).shifterImage,
                                    StdKernel.DefaultArgs(kernelname).sparkVersion) == StdKernel.Shifter(None)
  {
    StdKernel.DispatchExamples("");
  }

  /** desc-kernel.py and std-kernel.py, run for the same kernel name with
      the same HOME and `--local` choice, create the same kernel directory
      and write the same kernel.json, so whichever runs last overwrites the
      other's kernel. (std-kernel.py writes no kernel for a version it
      rejects.) */
  lemma DescSharesStdKernelFile(environ: map<string, string>, desc: DescKernel.DescArgs, std: StdKernel.StdArgs)
    requires "HOME" in environ
    requires desc.kernelname == std.kernelname && desc.local == std.local
    requires StdKernel.SelectVariant(std.shifterImage, std.sparkVersion) != StdKernel.Invalid
    ensures var descRun := DescKernel.DescKernelRun(environ, desc).value.effects;
      var stdRun := StdKernel.StdKernelRun(environ, std).value.effects;
      && |descRun| == 3 && |stdRun| > 0
      && descRun[0] == stdRun[0]
      && descRun[2].Write? && stdRun[|stdRun| - 1].Write?
      && descRun[2].artifact.filename == stdRun[|stdRun| - 1].artifact.filename
  {
    StdKernel.RunShape(environ, std);
    StdKernel.AcceptedRunEndsWithKernel(environ, std);
  }
}
