/**
  makekernel.py: writes a Jupyter kernel for Apache Spark at NERSC. It
  always writes a startup script that loads a Spark module and a kernel that
  runs it, into the IPython kernel folder. It offers no Shifter kernel and
  compares no versions.
 */
module MakeKernel {
  import opened Wrappers
  import opened PyText
  import opened Artifacts
  import StdKernel

  /** Command-line arguments of makekernel.py. */
  datatype MakeArgs = MakeArgs(
    kernelname: string,
    sparkVersion: string,  // default "2.1.0"
    pysparkArgs: string,   // default "--master local[*]"
    local: bool)

  /** The defaults argparse fills in when only the kernel name is given. */
  function DefaultArgs(kernelname: string): (a: MakeArgs)
    ensures a.kernelname == kernelname && !a.local
    ensures a.sparkVersion == "2.1.0" && a.pysparkArgs == "--master local[*]"
  {
    MakeArgs(kernelname, "2.1.0", "--master local[*]", false)
  }

  /** `create_startup_file(path, spark_version)`: the <path>/start_spark.sh
      it writes, one entry per `print`. Unlike the one std-kernel.py writes,
      it leaves the file's mode alone. */
  function CreateStartupFile(path: string, sparkVersion: string): (script: Artifact)
    ensures script.filename == JoinPath(path, "start_spark.sh")
    ensures BaseName(script.filename) == "start_spark.sh"
    ensures !script.ownerRwx
    ensures |script.prints| == 4
    ensures script.prints[0] == "#!/bin/bash"
    ensures script.prints[1] == "module load spark/" + sparkVersion
    ensures script.prints[2] == "start-all.sh"
    ensures script.prints[3] == StdKernel.AnacondaPython + " -m ipykernel $@"
  {
    JoinPathBaseName(path, "start_spark.sh");
    Artifact(JoinPath(path, "start_spark.sh"),
             [ "#!/bin/bash",
               "module load spark/" + sparkVersion,
               "start-all.sh",
               StdKernel.AnacondaPython + " -m ipykernel $@" ],
             false)
  }

  /** The environment of the kernel: the environment std-kernel.py gives its
      standard kernel, except that the two Python path entries are joined
      by a comma. */
  function KernelEnv(sparkVersion: string, pysparkArgs: string): seq<EnvEntry>
  {
    var sparkPath := StdKernel.ModuleSparkPath(sparkVersion);
    [ EnvEntry("SPARK_HOME", sparkPath, Inline),
      EnvEntry("PYSPARK_SUBMIT_ARGS", pysparkArgs + " pyspark-shell", Wrapped(" ", true)),
      EnvEntry("PYTHONSTARTUP", sparkPath + "/python/pyspark/shell.py", Inline),
      EnvEntry("PYTHONPATH", sparkPath + "/python," + sparkPath + "/python/lib/py4j-0.10.4-src.zip", Wrapped("", true)),
      EnvEntry("PYSPARK_PYTHON", StdKernel.AnacondaPython, Wrapped(" ", false)),
      EnvEntry("PYSPARK_DRIVER_PYTHON", "ipython3", Inline) ]
  }

  /** `create_kernel(path, startupname, kernelname, spark_version,
      pyspark_args)`: the <path>/kernel.json it writes, as the kernel.json
      layout of the display name, the startup script's argv and the
      environment above (`KernelPrints` gives its text line by line). */
  function CreateKernel(path: string, startupname: string, kernelname: string,
                        sparkVersion: string, pysparkArgs: string): (kernel: Artifact)
    ensures kernel.filename == JoinPath(path, "kernel.json") && !kernel.ownerRwx
    ensures BaseName(kernel.filename) == "kernel.json"
    ensures |kernel.prints| > 9
    ensures kernel.prints[1] == "  \"display_name\": \"" + kernelname + " (" + sparkVersion + ")\","
    ensures ArgvItems(kernel.prints[4..9]) == [startupname, "-m", "ipykernel", "-f", "{connection_file}"]
  {
    JoinPathBaseName(path, "kernel.json");
    KernelJsonArgv(StdKernel.DisplayName(kernelname, sparkVersion), StdKernel.StandardArgv(startupname),
                   KernelEnv(sparkVersion, pysparkArgs));
    Artifact(JoinPath(path, "kernel.json"),
             KernelJsonLines(StdKernel.DisplayName(kernelname, sparkVersion), StdKernel.StandardArgv(startupname),
                             KernelEnv(sparkVersion, pysparkArgs)),
             false)
  }

  /** The text of kernel.json, one entry per `print` of `create_kernel`, in
      the convention of `StdKernel.StandardKernelPrints`. */
  lemma KernelPrints(path: string, startupname: string, kernelname: string,
                     sparkVersion: string, pysparkArgs: string)
    ensures var sparkPath := "/global/common/cori/software/spark/" + sparkVersion;
      CreateKernel(path, startupname, kernelname, sparkVersion, pysparkArgs).prints
      == [ "{",
           "  \"display_name\": \"" + (kernelname + " (" + sparkVersion + ")") + "\",",
           "  \"language\": \"python\",",
           "  \"argv\": [" ]
         + [ "    \"" + startupname + "\",",
             "    \"" + "-m" + "\",",
             "    \"" + "ipykernel" + "\",",
             "    \"" + "-f" + "\",",
             "    \"" + "{connection_file}" + "\"" ]
         + [ "  ],", "  \"env\": {" ]
         + [ "    \"" + "SPARK_HOME" + "\": \"" + sparkPath + "\",",
             "    \"" + "PYSPARK_SUBMIT_ARGS" + "\":" + " ",
             "    \"" + (pysparkArgs + " pyspark-shell") + "\",",
             "    \"" + "PYTHONSTARTUP" + "\": \"" + (sparkPath + "/python/pyspark/shell.py") + "\",",
             "    \"" + "PYTHONPATH" + "\":",
             "    \"" + (sparkPath + "/python," + sparkPath + "/python/lib/py4j-0.10.4-src.zip") + "\",",
             "    \"" + "PYSPARK_PYTHON" + "\":" + " ",
             "\"" + "/usr/common/software/python/3.5-anaconda/bin/python" + "\",",
             "    \"" + "PYSPARK_DRIVER_PYTHON" + "\": \"" + "ipython3" + "\"" ]
         + [ "  }", "}" ]
  {
    KernelEnvText(sparkVersion, pysparkArgs);
  }

  /** The `env` block of the kernel is the text the script prints, one line
      per `print`. */
  lemma KernelEnvText(sparkVersion: string, pysparkArgs: string)
    ensures var sparkPath := "/global/common/cori/software/spark/" + sparkVersion;
      EnvBlock(KernelEnv(sparkVersion, pysparkArgs))
      == [ "    \"" + "SPARK_HOME" + "\": \"" + sparkPath + "\",",
           "    \"" + "PYSPARK_SUBMIT_ARGS" + "\":" + " ",
           "    \"" + (pysparkArgs + " pyspark-shell") + "\",",
           "    \"" + "PYTHONSTARTUP" + "\": \"" + (sparkPath + "/python/pyspark/shell.py") + "\",",
           "    \"" + "PYTHONPATH" + "\":",
           "    \"" + (sparkPath + "/python," + sparkPath + "/python/lib/py4j-0.10.4-src.zip") + "\",",
           "    \"" + "PYSPARK_PYTHON" + "\":" + " ",
           "\"" + "/usr/common/software/python/3.5-anaconda/bin/python" + "\",",
           "    \"" + "PYSPARK_DRIVER_PYTHON" + "\": \"" + "ipython3" + "\"" ]
  {
    var e := KernelEnv(sparkVersion, pysparkArgs);
    var sparkPath := "/global/common/cori/software/spark/" + sparkVersion;
    EnvBlockOfSix(e);
    assert EnvEntryLines(e[0], false)[0] == "    \"" + "SPARK_HOME" + "\": \"" + sparkPath + "\",";
    assert EnvEntryLines(e[1], false)[0] == "    \"" + "PYSPARK_SUBMIT_ARGS" + "\":" + " ";
    assert EnvEntryLines(e[1], false)[1] == "    \"" + (pysparkArgs + " pyspark-shell") + "\",";
    assert EnvEntryLines(e[2], false)[0] == "    \"" + "PYTHONSTARTUP" + "\": \"" + (sparkPath + "/python/pyspark/shell.py") + "\",";
    assert EnvEntryLines(e[3], false)[0] == "    \"" + "PYTHONPATH" + "\":";
    assert EnvEntryLines(e[3], false)[1] == "    \"" + (sparkPath + "/python," + sparkPath + "/python/lib/py4j-0.10.4-src.zip") + "\",";
    assert EnvEntryLines(e[4], false)[0] == "    \"" + "PYSPARK_PYTHON" + "\":" + " ";
    assert EnvEntryLines(e[4], false)[1] == "\"" + "/usr/common/software/python/3.5-anaconda/bin/python" + "\",";
    assert EnvEntryLines(e[5], true)[0] == "    \"" + "PYSPARK_DRIVER_PYTHON" + "\": \"" + "ipython3" + "\"";
  }

  /** The environment of the kernel: the module's Spark, the submission
      arguments, and a PYTHONPATH whose two entries are joined by a comma,
      which the Python path does not split on. */
  lemma KernelEnvEntries(sparkVersion: string, pysparkArgs: string)
    ensures var env := KernelEnv(sparkVersion, pysparkArgs);
      var sparkHome := "/global/common/cori/software/spark/" + sparkVersion;
      && DistinctKeys(env)
      && Lookup(env, "SPARK_HOME") == Some(sparkHome)
      && Lookup(env, "PYSPARK_SUBMIT_ARGS") == Some(pysparkArgs + " pyspark-shell")
      && Lookup(env, "PYTHONPATH") == Some(sparkHome + "/python," + sparkHome + "/python/lib/py4j-0.10.4-src.zip")
      && Lookup(env, "JAVA_HOME") == None
  {
    var env := KernelEnv(sparkVersion, pysparkArgs);
    LookupEntry(env, 0);
    LookupEntry(env, 1);
    LookupEntry(env, 3);
  }

  // ---------------------------------------------------------------------
  // Main block
  // ---------------------------------------------------------------------

  /** The IPython kernel folder below HOME, where the kernel goes unless
      `--local` is given. */
  const KernelFolder: string := "/.ipython/kernels/"

  /** The template the main block formats with HOME and the kernel name. */
  const KernelDirTemplate: string := "{}/.ipython/kernels/{}"

  /** The kernel directory of a run without `--local` is the main block's
      template formatted with HOME and the kernel name. */
  lemma KernelDirFromTemplate(home: string, kernelname: string)
    ensures Format(KernelDirTemplate, [home, kernelname]) == Ok(KernelDir(home, KernelFolder, kernelname, false))
  {
    assert KernelDirTemplate == "{}" + KernelFolder + "{}";
    KernelDirFormatted(home, KernelFolder, kernelname);
  }

  /** One run of `python makekernel.py ...` with the given environment
      variables: `Err("HOME")` is the KeyError raised when HOME is unset.
      Otherwise it creates the kernel directory, writes the startup script,
      then the kernel that runs it, and reports where the kernel is. */
  function MakeKernelRun(environ: map<string, string>, args: MakeArgs): (r: Result<Run, string>)
    ensures r.Err? <==> "HOME" !in environ
    ensures "HOME" in environ ==>
      var path := KernelDir(environ["HOME"], KernelFolder, args.kernelname, args.local);
      var effects := r.value.effects;
      && |effects| == 3 && effects[0] == MakeDirs(path)
      && effects[1].Write? && effects[1].artifact.filename == JoinPath(path, "start_spark.sh")
      && !effects[1].artifact.ownerRwx
      && effects[2].Write? && effects[2].artifact.filename == JoinPath(path, "kernel.json")
      && r.value.storedAt == Some(path)
  {
    if "HOME" !in environ then Err("HOME")
    else
      var path := KernelDir(environ["HOME"], KernelFolder, args.kernelname, args.local);
      var startupFn := CreateStartupFile(path, args.sparkVersion);
      Ok(Run([MakeDirs(path), Write(startupFn),
              Write(CreateKernel(path, startupFn.filename, args.kernelname, args.sparkVersion, args.pysparkArgs))],
             Some(path)))
  }

  /** Every run with HOME set creates the kernel directory, writes the
      startup script, then a kernel whose argv starts with that script's
      file name, although the script is left without execute permission. */
  lemma RunWritesStartupThenKernel(environ: map<string, string>, args: MakeArgs)
    requires "HOME" in environ
    ensures var path := KernelDir(environ["HOME"], KernelFolder, args.kernelname, args.local);
      var startupFn := CreateStartupFile(path, args.sparkVersion);
      var kernel := CreateKernel(path, startupFn.filename, args.kernelname, args.sparkVersion, args.pysparkArgs);
      && MakeKernelRun(environ, args) == Ok(Run([MakeDirs(path), Write(startupFn), Write(kernel)], Some(path)))
      && ArgvItems(kernel.prints[4..9])[0] == startupFn.filename
      && !startupFn.ownerRwx
  {
  }

  /** Without HOME the script stops before creating anything. */
  lemma MissingHome(environ: map<string, string>, args: MakeArgs)
    requires "HOME" !in environ
    ensures MakeKernelRun(environ, args) == Err("HOME")
  {
  }
}
