/**
  std-kernel.py: writes a Jupyter kernel for Apache Spark at NERSC, either a
  "standard" kernel that runs a startup script loading a Spark module, or a
  kernel that runs Spark inside a Shifter container image.
 */
module StdKernel {
  import opened Wrappers
  import opened PyText
  import opened Artifacts

  /** The Python interpreter used by the module-based kernels. */
  const AnacondaPython: string := "/usr/common/software/python/3.5-anaconda/bin/python"

  /** The Python interpreter inside the Shifter images. */
  const ShifterPython: string := "/root/anaconda3/bin/python"

  /** The version comparisons of the dispatch are made against these. */
  const LastModuleVersion: string := "2.1.0"
  const DefaultShifterVersion: string := "2.3.0"

  /** Command-line arguments of std-kernel.py. */
  datatype StdArgs = StdArgs(
    kernelname: string,
    sparkVersion: string,        // default "2.3.0"
    shifterImage: Option<string>, // default None
    pysparkArgs: string,         // default "--master local[4]"
    local: bool)

  /** The defaults argparse fills in when only the kernel name is given. */
  function DefaultArgs(kernelname: string): (a: StdArgs)
    ensures a.kernelname == kernelname && a.shifterImage == None && !a.local
    ensures a.sparkVersion == DefaultShifterVersion && a.pysparkArgs == "--master local[4]"
    ensures SelectVariant(a.shifterImage, a.sparkVersion) == Shifter(None)
  {
    StdArgs(kernelname, "2.3.0", None, "--master local[4]", false)
  }

  // ---------------------------------------------------------------------
  // Variant dispatch
  // ---------------------------------------------------------------------

  /** Which kernel the main block builds. `Shifter` carries the image argument
      passed on to `create_shifter_kernel`. */
  datatype Variant = Standard | Shifter(image: Option<string>) | Invalid

  /** The `if / elif / elif / else` of the main block: a given image always
      selects Shifter; otherwise versions up to "2.1.0" in Python's string
      order select the standard kernel, exactly "2.3.0" selects Shifter with
      the default image, and anything else is rejected. */
  function SelectVariant(shifterImage: Option<string>, sparkVersion: string): (variant: Variant)
    ensures shifterImage.Some? ==> variant == Shifter(shifterImage)
    ensures variant == Standard ==> LexLe(sparkVersion, LastModuleVersion)
    ensures variant == Shifter(None) ==> sparkVersion == DefaultShifterVersion
    ensures variant == Invalid ==> shifterImage == None && sparkVersion != DefaultShifterVersion
  {
    if shifterImage.Some? then Shifter(shifterImage)
    else if LexLe(sparkVersion, LastModuleVersion) then Standard
    else if sparkVersion == DefaultShifterVersion then Shifter(None)
    else Invalid
  }

  /** The dispatch, both ways: what each variant is selected for. */
  lemma DispatchTable(shifterImage: Option<string>, sparkVersion: string)
    ensures shifterImage.Some? <==> SelectVariant(shifterImage, sparkVersion) == Shifter(shifterImage) && shifterImage != None
    ensures SelectVariant(shifterImage, sparkVersion) == Standard
        <==> shifterImage == None && LexLe(sparkVersion, "2.1.0")
    ensures SelectVariant(shifterImage, sparkVersion) == Shifter(None)
        <==> shifterImage == None && sparkVersion == "2.3.0"
    ensures SelectVariant(shifterImage, sparkVersion) == Invalid
        <==> shifterImage == None && !LexLe(sparkVersion, "2.1.0") && sparkVersion != "2.3.0"
  {
  }

  /** Sample versions pushed through the dispatch: the ones std-kernel.py's
      help text names, plus a few that show the string order. String order puts "2.1" and "10.0.0"
      below "2.1.0", so they select the standard kernel; "2.1.1", "2.2.0" and
      "9.9.9" sort above it and are rejected. */
  lemma DispatchExamples(image: string)
    ensures SelectVariant(Some(image), "9.9.9") == Shifter(Some(image))
    ensures SelectVariant(None, "2.0.0") == Standard
    ensures SelectVariant(None, "2.1.0") == Standard
    ensures SelectVariant(None, "2.1") == Standard
    ensures SelectVariant(None, "10.0.0") == Standard
    ensures SelectVariant(None, "2.3.0") == Shifter(None)
    ensures SelectVariant(None, "2.1.1") == Invalid
    ensures SelectVariant(None, "2.2.0") == Invalid
    ensures SelectVariant(None, "9.9.9") == Invalid
  {
  }

  /** Because the comparison is Python's string order, every version string
      that sorts below one that selects the standard kernel selects it too. */
  lemma StandardIsDownwardClosed(v: string, w: string)
    requires SelectVariant(None, v) == Standard
    requires LexLe(w, v)
    ensures SelectVariant(None, w) == Standard
  {
    LexLeTotalOrder(w, v, LastModuleVersion);
  }

  // ---------------------------------------------------------------------
  // Startup script (module-based kernels)
  // ---------------------------------------------------------------------

  /** `create_startup_file(path, spark_version)`: the script it writes to
      <path>/start_spark.sh and then chmods to owner read/write/execute (the
      Python function returns the file's name). The script loads the Spark
      module of the requested version, starts the cluster, then runs
      ipykernel under the module Python with the arguments it was given. */
  function CreateStartupFile(path: string, sparkVersion: string): (script: Artifact)
    ensures script.filename == JoinPath(path, "start_spark.sh")
    ensures BaseName(script.filename) == "start_spark.sh"
    ensures script.ownerRwx
    ensures |script.prints| == 4
    ensures script.prints[0] == "#!/bin/bash"
    ensures script.prints[1] == "module load spark/" + sparkVersion
    ensures script.prints[2] == "start-all.sh"
    ensures script.prints[3] == AnacondaPython + " -m ipykernel $@"
  {
    JoinPathBaseName(path, "start_spark.sh");
    Artifact(JoinPath(path, "start_spark.sh"),
             [ "#!/bin/bash",
               "module load spark/" + sparkVersion,
               "start-all.sh",
               AnacondaPython + " -m ipykernel $@" ],
             true)
  }

  // ---------------------------------------------------------------------
  // Standard kernel
  // ---------------------------------------------------------------------

  /** Where the Spark module installs a given version. */
  function ModuleSparkPath(sparkVersion: string): string
  {
    "/global/common/cori/software/spark/" + sparkVersion
  }

  /** The argv of the standard kernel: the startup script, which ends by
      starting ipykernel on the connection file Jupyter passes. */
  function StandardArgv(startupname: string): seq<string>
  {
    [startupname, "-m", "ipykernel", "-f", "{connection_file}"]
  }

  /** The environment of the standard kernel, with the layout of each entry
      as the script prints it. */
  function StandardEnv(sparkVersion: string, pysparkArgs: string): seq<EnvEntry>
  {
    var sparkPath := ModuleSparkPath(sparkVersion);
    [ EnvEntry("SPARK_HOME", sparkPath, Inline),
      EnvEntry("PYSPARK_SUBMIT_ARGS", pysparkArgs + " pyspark-shell", Wrapped(" ", true)),
      EnvEntry("PYTHONSTARTUP", sparkPath + "/python/pyspark/shell.py", Inline),
      EnvEntry("PYTHONPATH", sparkPath + "/python:" + sparkPath + "/python/lib/py4j-0.10.4-src.zip", Wrapped("", true)),
      EnvEntry("PYSPARK_PYTHON", AnacondaPython, Wrapped(" ", false)),
      EnvEntry("PYSPARK_DRIVER_PYTHON", "ipython3", Inline) ]
  }

  /** The name the kernel picker shows. */
  function DisplayName(kernelname: string, sparkVersion: string): string
  {
    kernelname + " (" + sparkVersion + ")"
  }

  /** `create_standard_kernel(path, startupname, kernelname, spark_version,
      pyspark_args)`: the <path>/kernel.json it writes, as the kernel.json
      layout of the display name, the standard argv and the standard
      environment (`StandardKernelPrints` gives its text line by line). The
      kernel starts with the startup script it is given and asks ipykernel
      for the connection file. */
  function CreateStandardKernel(path: string, startupname: string, kernelname: string,
                                sparkVersion: string, pysparkArgs: string): (kernel: Artifact)
    ensures kernel.filename == JoinPath(path, "kernel.json") && !kernel.ownerRwx
    ensures BaseName(kernel.filename) == "kernel.json"
    ensures |kernel.prints| > 9
    ensures kernel.prints[1] == "  \"display_name\": \"" + kernelname + " (" + sparkVersion + ")\","
    ensures ArgvItems(kernel.prints[4..9]) == [startupname, "-m", "ipykernel", "-f", "{connection_file}"]
  {
    JoinPathBaseName(path, "kernel.json");
    KernelJsonArgv(DisplayName(kernelname, sparkVersion), StandardArgv(startupname),
                   StandardEnv(sparkVersion, pysparkArgs));
    Artifact(JoinPath(path, "kernel.json"),
             KernelJsonLines(DisplayName(kernelname, sparkVersion), StandardArgv(startupname),
                             StandardEnv(sparkVersion, pysparkArgs)),
             false)
  }

  /** The text of the standard kernel.json, one entry per `print` of
      `create_standard_kernel`. A line holding a JSON string is written as
      its indentation and opening quote, the string, and the closing quote
      (and comma). */
  lemma StandardKernelPrints(path: string, startupname: string, kernelname: string,
                             sparkVersion: string, pysparkArgs: string)
    ensures var sparkPath := "/global/common/cori/software/spark/" + sparkVersion;
      CreateStandardKernel(path, startupname, kernelname, sparkVersion, pysparkArgs).prints
      == [ "{",
           "  \"display_name\": \"" + (kernelname + " (" + sparkVersion + ")") + "\",",
           "  \"language\": \"python\",",
           "  \"argv\": [" ]
         + [ "    \"" + startupname + "\",",
             "    \"" + "-m" + "\",",
             "    \"" + "ipykernel" + "\",",
             "    \"" + "-f" + "\",",
             "    \"" + "{connection_file}" + "\"" ]
         + [ "  ],", "  \"env\": {" ]
         + [ "    \"" + "SPARK_HOME" + "\": \"" + sparkPath + "\",",
             "    \"" + "PYSPARK_SUBMIT_ARGS" + "\":" + " ",
             "    \"" + (pysparkArgs + " pyspark-shell") + "\",",
             "    \"" + "PYTHONSTARTUP" + "\": \"" + (sparkPath + "/python/pyspark/shell.py") + "\",",
             "    \"" + "PYTHONPATH" + "\":",
             "    \"" + (sparkPath + "/python:" + sparkPath + "/python/lib/py4j-0.10.4-src.zip") + "\",",
             "    \"" + "PYSPARK_PYTHON" + "\":" + " ",
             "\"" + "/usr/common/software/python/3.5-anaconda/bin/python" + "\",",
             "    \"" + "PYSPARK_DRIVER_PYTHON" + "\": \"" + "ipython3" + "\"" ]
         + [ "  }", "}" ]
  {
    StandardEnvText(sparkVersion, pysparkArgs);
  }

  /** The `env` block of the standard kernel is the text the script prints,
      one line per `print`. */
  lemma StandardEnvText(sparkVersion: string, pysparkArgs: string)
    ensures var sparkPath := "/global/common/cori/software/spark/" + sparkVersion;
      EnvBlock(StandardEnv(sparkVersion, pysparkArgs))
      == [ "    \"" + "SPARK_HOME" + "\": \"" + sparkPath + "\",",
           "    \"" + "PYSPARK_SUBMIT_ARGS" + "\":" + " ",
           "    \"" + (pysparkArgs + " pyspark-shell") + "\",",
           "    \"" + "PYTHONSTARTUP" + "\": \"" + (sparkPath + "/python/pyspark/shell.py") + "\",",
           "    \"" + "PYTHONPATH" + "\":",
           "    \"" + (sparkPath + "/python:" + sparkPath + "/python/lib/py4j-0.10.4-src.zip") + "\",",
           "    \"" + "PYSPARK_PYTHON" + "\":" + " ",
           "\"" + "/usr/common/software/python/3.5-anaconda/bin/python" + "\",",
           "    \"" + "PYSPARK_DRIVER_PYTHON" + "\": \"" + "ipython3" + "\"" ]
  {
    var e := StandardEnv(sparkVersion, pysparkArgs);
    var sparkPath := "/global/common/cori/software/spark/" + sparkVersion;
    EnvBlockOfSix(e);
    assert EnvEntryLines(e[0], false)[0] == "    \"" + "SPARK_HOME" + "\": \"" + sparkPath + "\",";
    assert EnvEntryLines(e[1], false)[0] == "    \"" + "PYSPARK_SUBMIT_ARGS" + "\":" + " ";
    assert EnvEntryLines(e[1], false)[1] == "    \"" + (pysparkArgs + " pyspark-shell") + "\",";
    assert EnvEntryLines(e[2], false)[0] == "    \"" + "PYTHONSTARTUP" + "\": \"" + (sparkPath + "/python/pyspark/shell.py") + "\",";
    assert EnvEntryLines(e[3], false)[0] == "    \"" + "PYTHONPATH" + "\":";
    assert EnvEntryLines(e[3], false)[1] == "    \"" + (sparkPath + "/python:" + sparkPath + "/python/lib/py4j-0.10.4-src.zip") + "\",";
    assert EnvEntryLines(e[4], false)[0] == "    \"" + "PYSPARK_PYTHON" + "\":" + " ";
    assert EnvEntryLines(e[4], false)[1] == "\"" + "/usr/common/software/python/3.5-anaconda/bin/python" + "\",";
    assert EnvEntryLines(e[5], true)[0] == "    \"" + "PYSPARK_DRIVER_PYTHON" + "\": \"" + "ipython3" + "\"";
  }

  /** The environment of the standard kernel gives Spark the module's
      installation, the submission arguments and py4j 0.10.4, with the two
      Python path entries separated by a colon. It sets no JAVA_HOME. */
  lemma StandardKernelEnv(sparkVersion: string, pysparkArgs: string)
    ensures var env := StandardEnv(sparkVersion, pysparkArgs);
      var sparkHome := "/global/common/cori/software/spark/" + sparkVersion;
      && DistinctKeys(env)
      && Lookup(env, "SPARK_HOME") == Some(sparkHome)
      && Lookup(env, "PYSPARK_SUBMIT_ARGS") == Some(pysparkArgs + " pyspark-shell")
      && Lookup(env, "PYTHONPATH") == Some(sparkHome + "/python:" + sparkHome + "/python/lib/py4j-0.10.4-src.zip")
      && Lookup(env, "PYSPARK_PYTHON") == Some("/usr/common/software/python/3.5-anaconda/bin/python")
      && Lookup(env, "JAVA_HOME") == None
  {
    var env := StandardEnv(sparkVersion, pysparkArgs);
    LookupEntry(env, 0);
    LookupEntry(env, 1);
    LookupEntry(env, 3);
    LookupEntry(env, 4);
  }

  // ---------------------------------------------------------------------
  // Shifter kernel
  // ---------------------------------------------------------------------

  /** Where Spark lives inside the Shifter images. The software path ends with
      a slash and the format adds another, so the path holds `//`. */
  function ShifterSparkPath(sparkVersion: string): string
  {
    "/usr/local/bin//spark-" + sparkVersion
  }

  /** The folder mounted as /tmp in the container: $SCRATCH/tmpfiles when
      SCRATCH is set, otherwise <path>/tmpfiles. */
  function TmpFolder(path: string, environ: map<string, string>): string
  {
    var scratch := if "SCRATCH" in environ then environ["SCRATCH"] else path;
    scratch + "/tmpfiles"
  }

  /** The temporary folder is named `tmpfiles` and sits in $SCRATCH when
      SCRATCH is set, in the kernel directory otherwise. */
  lemma TmpFolderParts(path: string, environ: map<string, string>)
    ensures var folder := TmpFolder(path, environ);
      && BaseName(folder) == "tmpfiles"
      && |folder| >= 9
      && folder[..|folder| - 9] == if "SCRATCH" in environ then environ["SCRATCH"] else path
  {
    var scratch := if "SCRATCH" in environ then environ["SCRATCH"] else path;
    var folder := scratch + "/tmpfiles";
    var name := folder[|scratch| + 1..];
    assert name == "tmpfiles" && '/' !in name;
    assert forall j :: |scratch| < j < |folder| ==> folder[j] != '/' by {
      forall j | |scratch| < j < |folder| ensures folder[j] != '/' {
        assert folder[j] == name[j - |scratch| - 1];
      }
    }
    assert folder[|scratch|] == '/';
    assert LastSlash(folder) == |scratch|;
  }

  /** The `--image=` option: the given image when it is truthy in Python
      (present and not empty), otherwise NERSC's image for the Spark
      version. */
  function ImageOption(sparkVersion: string, shifterImage: Option<string>): string
  {
    if shifterImage.Some? && shifterImage.value != "" then "--image=" + shifterImage.value
    else "--image=nersc/spark-" + sparkVersion + ":v1"
  }

  /** The option is `--image=` followed by the image name: the given one when
      it is non-empty, NERSC's for the Spark version otherwise. */
  lemma ImageOptionParts(sparkVersion: string, shifterImage: Option<string>)
    ensures var option := ImageOption(sparkVersion, shifterImage);
      && |option| > 8 && option[..8] == "--image="
      && (shifterImage.Some? && shifterImage.value != "" ==> option[8..] == shifterImage.value)
      && (shifterImage.None? || shifterImage.value == "" ==> option[8..] == "nersc/spark-" + sparkVersion + ":v1")
  {
    if shifterImage.None? || shifterImage.value == "" {
      assert "--image=nersc/spark-" + sparkVersion + ":v1" == "--image=" + ("nersc/spark-" + sparkVersion + ":v1");
    }
  }

  /** The argv of the Shifter kernel: `shifter` starts the image with the
      scratch folder mounted as a per-node /tmp cache and runs the image's
      Python on ipykernel. */
  function ShifterArgv(imageOption: string, tmpfolder: string): seq<string>
  {
    [ "shifter",
      imageOption,
      "--volume=\\\"" + tmpfolder + ":/tmp:perNodeCache=size=200G\\\"",
      ShifterPython, "-m", "ipykernel", "-f", "{connection_file}" ]
  }

  /** The environment of the Shifter kernel, with the layout of each entry
      as the script prints it. */
  function ShifterEnv(sparkVersion: string, pysparkArgs: string): seq<EnvEntry>
  {
    var sparkPath := ShifterSparkPath(sparkVersion);
    [ EnvEntry("SPARK_HOME", sparkPath, Inline),
      EnvEntry("PYSPARK_SUBMIT_ARGS", pysparkArgs + " pyspark-shell", Wrapped(" ", true)),
      EnvEntry("PYTHONSTARTUP", sparkPath + "/python/pyspark/shell.py", Inline),
      EnvEntry("PYTHONPATH", sparkPath + "/python:" + sparkPath + "/python/lib/py4j-0.10.6-src.zip", Wrapped("", true)),
      EnvEntry("PYSPARK_PYTHON", ShifterPython, Inline),
      EnvEntry("PYSPARK_DRIVER_PYTHON", "ipython3", Inline),
      EnvEntry("JAVA_HOME", "/usr", Inline) ]
  }

  /** `create_shifter_kernel(path, kernelname, spark_version, pyspark_args,
      shifter_image)` with the process environment `environ`: its effects in
      order. It creates the temporary folder, then writes <path>/kernel.json
      as the kernel.json layout of the display name, the Shifter argv and
      the Shifter environment (`ShifterKernelPrints` gives its text line by
      line). The kernel runs ipykernel inside the image through `shifter`,
      with the temporary folder mounted as the container's /tmp. */
  function CreateShifterKernel(path: string, kernelname: string, sparkVersion: string, pysparkArgs: string,
                               shifterImage: Option<string>, environ: map<string, string>): (effects: seq<Effect>)
    ensures |effects| == 2
    ensures effects[0] == MakeDirs(TmpFolder(path, environ))
    ensures effects[1].Write?
    ensures effects[1].artifact.filename == JoinPath(path, "kernel.json") && !effects[1].artifact.ownerRwx
    ensures BaseName(effects[1].artifact.filename) == "kernel.json"
    ensures |effects[1].artifact.prints| > 12
    ensures effects[1].artifact.prints[1] == "  \"display_name\": \"" + kernelname + " (" + sparkVersion + ")\","
    ensures ArgvItems(effects[1].artifact.prints[4..12])
         == ["shifter", ImageOption(sparkVersion, shifterImage),
             "--volume=\\\"" + TmpFolder(path, environ) + ":/tmp:perNodeCache=size=200G\\\"",
             "/root/anaconda3/bin/python", "-m", "ipykernel", "-f", "{connection_file}"]
  {
    var tmpfolder := TmpFolder(path, environ);
    var argv := ShifterArgv(ImageOption(sparkVersion, shifterImage), tmpfolder);
    JoinPathBaseName(path, "kernel.json");
    KernelJsonArgv(DisplayName(kernelname, sparkVersion), argv, ShifterEnv(sparkVersion, pysparkArgs));
    [ MakeDirs(tmpfolder),
      Write(Artifact(JoinPath(path, "kernel.json"),
                     KernelJsonLines(DisplayName(kernelname, sparkVersion), argv, ShifterEnv(sparkVersion, pysparkArgs)),
                     false)) ]
  }

  /** The text of the Shifter kernel.json, one entry per `print` of
      `create_shifter_kernel`, in the convention of `StandardKernelPrints`. */
  lemma ShifterKernelPrints(path: string, kernelname: string, sparkVersion: string, pysparkArgs: string,
                            shifterImage: Option<string>, environ: map<string, string>)
    ensures var sparkPath := "/usr/local/bin//spark-" + sparkVersion;
      var scratch := if "SCRATCH" in environ then environ["SCRATCH"] else path;
      var tmpfolder := scratch + "/tmpfiles";
      CreateShifterKernel(path, kernelname, sparkVersion, pysparkArgs, shifterImage, environ)[1].artifact.prints
      == [ "{",
           "  \"display_name\": \"" + (kernelname + " (" + sparkVersion + ")") + "\",",
           "  \"language\": \"python\",",
           "  \"argv\": [" ]
         + [ "    \"" + "shifter" + "\",",
             if shifterImage.Some? && shifterImage.value != "" then
               "    \"" + ("--image=" + shifterImage.value) + "\","
             else
               "    \"" + ("--image=nersc/spark-" + sparkVersion + ":v1") + "\",",
             "    \"" + ("--volume=\\\"" + tmpfolder + ":/tmp:perNodeCache=size=200G\\\"") + "\",",
             "    \"" + "/root/anaconda3/bin/python" + "\",",
             "    \"" + "-m" + "\",",
             "    \"" + "ipykernel" + "\",",
             "    \"" + "-f" + "\",",
             "    \"" + "{connection_file}" + "\"" ]
         + [ "  ],", "  \"env\": {" ]
         + [ "    \"" + "SPARK_HOME" + "\": \"" + sparkPath + "\",",
             "    \"" + "PYSPARK_SUBMIT_ARGS" + "\":" + " ",
             "    \"" + (pysparkArgs + " pyspark-shell") + "\",",
             "    \"" + "PYTHONSTARTUP" + "\": \"" + (sparkPath + "/python/pyspark/shell.py") + "\",",
             "    \"" + "PYTHONPATH" + "\":",
             "    \"" + (sparkPath + "/python:" + sparkPath + "/python/lib/py4j-0.10.6-src.zip") + "\",",
             "    \"" + "PYSPARK_PYTHON" + "\": \"" + "/root/anaconda3/bin/python" + "\",",
             "    \"" + "PYSPARK_DRIVER_PYTHON" + "\": \"" + "ipython3" + "\",",
             "    \"" + "JAVA_HOME" + "\": \"" + "/usr" + "\"" ]
         + [ "  }", "}" ]
  {
    ShifterEnvText(sparkVersion, pysparkArgs);
    ShifterArgvText(ImageOption(sparkVersion, shifterImage), TmpFolder(path, environ));
  }

  /** The `argv` block of the Shifter kernel, one line per `print`. */
  lemma ShifterArgvText(imageOption: string, tmpfolder: string)
    ensures ArgvBlock(ShifterArgv(imageOption, tmpfolder))
         == [ "    \"" + "shifter" + "\",",
              "    \"" + imageOption + "\",",
              "    \"" + ("--volume=\\\"" + tmpfolder + ":/tmp:perNodeCache=size=200G\\\"") + "\",",
              "    \"" + "/root/anaconda3/bin/python" + "\",",
              "    \"" + "-m" + "\",",
              "    \"" + "ipykernel" + "\",",
              "    \"" + "-f" + "\",",
              "    \"" + "{connection_file}" + "\"" ]
  {
  }

  /** The `env` block of the Shifter kernel is the text the script prints,
      one line per `print`. */
  lemma ShifterEnvText(sparkVersion: string, pysparkArgs: string)
    ensures var sparkPath := "/usr/local/bin//spark-" + sparkVersion;
      EnvBlock(ShifterEnv(sparkVersion, pysparkArgs))
      == [ "    \"" + "SPARK_HOME" + "\": \"" + sparkPath + "\",",
           "    \"" + "PYSPARK_SUBMIT_ARGS" + "\":" + " ",
           "    \"" + (pysparkArgs + " pyspark-shell") + "\",",
           "    \"" + "PYTHONSTARTUP" + "\": \"" + (sparkPath + "/python/pyspark/shell.py") + "\",",
           "    \"" + "PYTHONPATH" + "\":",
           "    \"" + (sparkPath + "/python:" + sparkPath + "/python/lib/py4j-0.10.6-src.zip") + "\",",
           "    \"" + "PYSPARK_PYTHON" + "\": \"" + "/root/anaconda3/bin/python" + "\",",
           "    \"" + "PYSPARK_DRIVER_PYTHON" + "\": \"" + "ipython3" + "\",",
           "    \"" + "JAVA_HOME" + "\": \"" + "/usr" + "\"" ]
  {
    var e := ShifterEnv(sparkVersion, pysparkArgs);
    var sparkPath := "/usr/local/bin//spark-" + sparkVersion;
    EnvBlockOfSeven(e);
    assert EnvEntryLines(e[0], false)[0] == "    \"" + "SPARK_HOME" + "\": \"" + sparkPath + "\",";
    assert EnvEntryLines(e[1], false)[0] == "    \"" + "PYSPARK_SUBMIT_ARGS" + "\":" + " ";
    assert EnvEntryLines(e[1], false)[1] == "    \"" + (pysparkArgs + " pyspark-shell") + "\",";
    assert EnvEntryLines(e[2], false)[0] == "    \"" + "PYTHONSTARTUP" + "\": \"" + (sparkPath + "/python/pyspark/shell.py") + "\",";
    assert EnvEntryLines(e[3], false)[0] == "    \"" + "PYTHONPATH" + "\":";
    assert EnvEntryLines(e[3], false)[1] == "    \"" + (sparkPath + "/python:" + sparkPath + "/python/lib/py4j-0.10.6-src.zip") + "\",";
    assert EnvEntryLines(e[4], false)[0] == "    \"" + "PYSPARK_PYTHON" + "\": \"" + "/root/anaconda3/bin/python" + "\",";
    assert EnvEntryLines(e[5], false)[0] == "    \"" + "PYSPARK_DRIVER_PYTHON" + "\": \"" + "ipython3" + "\",";
    assert EnvEntryLines(e[6], true)[0] == "    \"" + "JAVA_HOME" + "\": \"" + "/usr" + "\"";
  }

  /** The Shifter environment sets each variable once. */
  lemma ShifterEnvKeys(sparkVersion: string, pysparkArgs: string)
    ensures DistinctKeys(ShifterEnv(sparkVersion, pysparkArgs))
  {
    var keys := seq(7, i requires 0 <= i < 7 => ShifterEnv(sparkVersion, pysparkArgs)[i].key);
    assert keys == ["SPARK_HOME", "PYSPARK_SUBMIT_ARGS", "PYTHONSTARTUP", "PYTHONPATH",
                    "PYSPARK_PYTHON", "PYSPARK_DRIVER_PYTHON", "JAVA_HOME"];
  }

  /** The environment of the Shifter kernel points at the image's Spark,
      whose path holds `//`, and its py4j 0.10.6, runs the image's Python,
      and sets JAVA_HOME to /usr. */
  lemma ShifterKernelEnv(sparkVersion: string, pysparkArgs: string)
    ensures var env := ShifterEnv(sparkVersion, pysparkArgs);
      var sparkHome := "/usr/local/bin//spark-" + sparkVersion;
      && DistinctKeys(env)
      && Lookup(env, "SPARK_HOME") == Some(sparkHome)
      && sparkHome[14..16] == "//"
      && Lookup(env, "PYSPARK_SUBMIT_ARGS") == Some(pysparkArgs + " pyspark-shell")
      && Lookup(env, "PYTHONPATH") == Some(sparkHome + "/python:" + sparkHome + "/python/lib/py4j-0.10.6-src.zip")
      && Lookup(env, "PYSPARK_PYTHON") == Some("/root/anaconda3/bin/python")
      && Lookup(env, "JAVA_HOME") == Some("/usr")
  {
    var env := ShifterEnv(sparkVersion, pysparkArgs);
    ShifterEnvKeys(sparkVersion, pysparkArgs);
    LookupEntry(env, 0);
    LookupEntry(env, 1);
    LookupEntry(env, 3);
    LookupEntry(env, 4);
    LookupEntry(env, 6);
  }

  /** The image the Shifter kernel runs. A given image name is used only
      when it is truthy: an empty name passes the `is not None` test of the
      dispatch, yet the kernel still runs NERSC's image for the Spark
      version. */
  lemma ShifterImage(path: string, kernelname: string, sparkVersion: string, pysparkArgs: string,
                     shifterImage: Option<string>, environ: map<string, string>)
    ensures var kernel := CreateShifterKernel(path, kernelname, sparkVersion, pysparkArgs, shifterImage, environ)[1].artifact;
      ArgvItems(kernel.prints[4..12])[1]
      == if shifterImage.Some? && shifterImage.value != "" then "--image=" + shifterImage.value
         else "--image=nersc/spark-" + sparkVersion + ":v1"
    ensures SelectVariant(Some(""), sparkVersion) == Shifter(Some(""))
  {
    var kernel := CreateShifterKernel(path, kernelname, sparkVersion, pysparkArgs, shifterImage, environ)[1].artifact;
    assert ArgvItems(kernel.prints[4..12])[1] == ImageOption(sparkVersion, shifterImage);
  }

  // ---------------------------------------------------------------------
  // Main block
  // ---------------------------------------------------------------------

  /** Jupyter's per-user kernel folder below HOME, where the kernel goes
      unless `--local` is given. */
  const KernelFolder: string := "/.local/share/jupyter/kernels/"

  /** The template the main block formats with HOME and the kernel name. */
  const KernelDirTemplate: string := "{}/.local/share/jupyter/kernels/{}"

  /** The kernel directory of a run without `--local` is the main block's
      template formatted with HOME and the kernel name. */
  lemma KernelDirFromTemplate(home: string, kernelname: string)
    ensures Format(KernelDirTemplate, [home, kernelname]) == Ok(KernelDir(home, KernelFolder, kernelname, false))
  {
    assert KernelDirTemplate == "{}" + KernelFolder + "{}";
    KernelDirFormatted(home, KernelFolder, kernelname);
  }

  /** One run of `python std-kernel.py ...` with the given environment
      variables: `Err("HOME")` is the KeyError raised when HOME is unset,
      before anything is created. Otherwise the kernel directory is created
      first, whatever the dispatch then decides. */
  function StdKernelRun(environ: map<string, string>, args: StdArgs): (r: Result<Run, string>)
    ensures r.Err? <==> "HOME" !in environ
  {
    if "HOME" !in environ then Err("HOME")
    else
      var path := KernelDir(environ["HOME"], KernelFolder, args.kernelname, args.local);
      match SelectVariant(args.shifterImage, args.sparkVersion)
      case Shifter(image) =>
        Ok(Run([MakeDirs(path)]
               + CreateShifterKernel(path, args.kernelname, args.sparkVersion, args.pysparkArgs, image, environ),
               Some(path)))
      case Standard =>
        var startup := CreateStartupFile(path, args.sparkVersion);
        Ok(Run([MakeDirs(path), Write(startup),
                Write(CreateStandardKernel(path, startup.filename, args.kernelname, args.sparkVersion, args.pysparkArgs))],
               Some(path)))
      case Invalid =>
        Ok(Run([MakeDirs(path)], None))
  }

  /** With an image the Shifter kernel is built whatever the version: after
      the kernel directory come the effects of `create_shifter_kernel`
      with that image (the temporary folder, then kernel.json). No startup
      script is written. */
  lemma CustomImageRun(environ: map<string, string>, args: StdArgs)
    requires "HOME" in environ && args.shifterImage.Some?
    ensures var path := KernelDir(environ["HOME"], KernelFolder, args.kernelname, args.local);
      var effects := CreateShifterKernel(path, args.kernelname, args.sparkVersion, args.pysparkArgs,
                                         args.shifterImage, environ);
      StdKernelRun(environ, args) == Ok(Run([MakeDirs(path)] + effects, Some(path)))
  {
  }

  /** A version up to "2.1.0" (as strings) without an image creates the
      kernel directory, writes the executable startup script, then a
      standard kernel whose argv starts with that script's file name. */
  lemma ModuleRun(environ: map<string, string>, args: StdArgs)
    requires "HOME" in environ && args.shifterImage == None
    requires LexLe(args.sparkVersion, "2.1.0")
    ensures var path := KernelDir(environ["HOME"], KernelFolder, args.kernelname, args.local);
      var startup := CreateStartupFile(path, args.sparkVersion);
      var kernel := CreateStandardKernel(path, startup.filename, args.kernelname, args.sparkVersion, args.pysparkArgs);
      && StdKernelRun(environ, args) == Ok(Run([MakeDirs(path), Write(startup), Write(kernel)], Some(path)))
      && startup.ownerRwx
      && ArgvItems(kernel.prints[4..9])[0] == startup.filename
  {
    assert SelectVariant(args.shifterImage, args.sparkVersion) == Standard;
  }

  /** Exactly "2.3.0" without an image builds the Shifter kernel without an
      image name, so with NERSC's image for 2.3.0 (`ShifterImage`). */
  lemma DefaultShifterRun(environ: map<string, string>, args: StdArgs)
    requires "HOME" in environ && args.shifterImage == None && args.sparkVersion == "2.3.0"
    ensures var path := KernelDir(environ["HOME"], KernelFolder, args.kernelname, args.local);
      var effects := CreateShifterKernel(path, args.kernelname, "2.3.0", args.pysparkArgs, None, environ);
      StdKernelRun(environ, args) == Ok(Run([MakeDirs(path)] + effects, Some(path)))
  {
    assert SelectVariant(None, "2.3.0") == Shifter(None);
  }

  /** Any other version without an image: the kernel directory has already
      been created, but nothing is written and no "Kernel stored" notice is
      printed. */
  lemma RejectedRun(environ: map<string, string>, args: StdArgs)
    requires "HOME" in environ && args.shifterImage == None
    requires !LexLe(args.sparkVersion, "2.1.0") && args.sparkVersion != "2.3.0"
    ensures StdKernelRun(environ, args)
         == Ok(Run([MakeDirs(KernelDir(environ["HOME"], KernelFolder, args.kernelname, args.local))], None))
  {
  }

  /** Every run with HOME set first creates the kernel directory, and
      reports that directory exactly when the dispatch accepts the
      arguments. */
  lemma RunShape(environ: map<string, string>, args: StdArgs)
    requires "HOME" in environ
    ensures var path := KernelDir(environ["HOME"], KernelFolder, args.kernelname, args.local);
      var run := StdKernelRun(environ, args).value;
      && |run.effects| > 0 && run.effects[0] == MakeDirs(path)
      && (run.storedAt.Some? <==> SelectVariant(args.shifterImage, args.sparkVersion) != Invalid)
      && (run.storedAt.Some? ==> run.storedAt == Some(path))
  {
  }

  /** Whenever the dispatch accepts the arguments, the last of the run's
      three effects writes <dir>/kernel.json, whichever kernel that is. */
  lemma AcceptedRunEndsWithKernel(environ: map<string, string>, args: StdArgs)
    requires "HOME" in environ
    requires SelectVariant(args.shifterImage, args.sparkVersion) != Invalid
    ensures var path := KernelDir(environ["HOME"], KernelFolder, args.kernelname, args.local);
      var effects := StdKernelRun(environ, args).value.effects;
      && |effects| == 3
      && effects[2].Write? && effects[2].artifact.filename == JoinPath(path, "kernel.json")
  {
    if SelectVariant(args.shifterImage, args.sparkVersion).Shifter? {
      ShifterRunEndsWithKernel(environ, args);
    } else {
      ModuleRun(environ, args);
    }
  }

  /** The same for the two ways to reach the Shifter kernel. */
  lemma ShifterRunEndsWithKernel(environ: map<string, string>, args: StdArgs)
    requires "HOME" in environ
    requires SelectVariant(args.shifterImage, args.sparkVersion).Shifter?
    ensures var path := KernelDir(environ["HOME"], KernelFolder, args.kernelname, args.local);
      var effects := StdKernelRun(environ, args).value.effects;
      && |effects| == 3
      && effects[2].Write? && effects[2].artifact.filename == JoinPath(path, "kernel.json")
  {
    var path := KernelDir(environ["HOME"], KernelFolder, args.kernelname, args.local);
    var effects := StdKernelRun(environ, args).value.effects;
    if args.shifterImage.Some? {
      CustomImageRun(environ, args);
      ShifterRunEffects(path, effects, args.kernelname, args.sparkVersion, args.pysparkArgs, args.shifterImage, environ);
    } else {
      DefaultShifterRun(environ, args);
      ShifterRunEffects(path, effects, args.kernelname, args.sparkVersion, args.pysparkArgs, None, environ);
    }
  }

  /** A run that builds the Shifter kernel has three effects, the last of
      them writing <dir>/kernel.json. */
  lemma ShifterRunEffects(path: string, effects: seq<Effect>, kernelname: string, sparkVersion: string,
                          pysparkArgs: string, image: Option<string>, environ: map<string, string>)
    requires effects == [MakeDirs(path)] + CreateShifterKernel(path, kernelname, sparkVersion, pysparkArgs, image, environ)
    ensures |effects| == 3 && effects[2].Write? && effects[2].artifact.filename == JoinPath(path, "kernel.json")
  {
  }

  /** Without HOME the script stops before creating anything. */
  lemma MissingHome(environ: map<string, string>, args: StdArgs)
    requires "HOME" !in environ
    ensures StdKernelRun(environ, args) == Err("HOME")
  {
  }
}
