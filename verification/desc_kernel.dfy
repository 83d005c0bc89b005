/**
  desc-kernel.py: writes a Jupyter kernel that runs the LSST DESC Python
  environment with a private Spark 2.3.2 at NERSC. Both files come from
  `str.format` templates: a shell script that sets up Spark and activates
  desc-python, and a kernel.json that runs the script.
 */
module DescKernel {
  import opened Wrappers
  import opened PyText
  import opened Artifacts
  import StdKernel

  /** Command-line arguments of desc-kernel.py. */
  datatype DescArgs = DescArgs(
    kernelname: string,
    pysparkArgs: string,  // default "--master local[4]"
    local: bool)

  /** The defaults argparse fills in when only the kernel name is given. */
  function DefaultArgs(kernelname: string): (a: DescArgs)
    ensures a.kernelname == kernelname && !a.local
    ensures a.pysparkArgs == "--master local[4]"
  {
    DescArgs(kernelname, "--master local[4]", false)
  }

  // ---------------------------------------------------------------------
  // Startup script
  // ---------------------------------------------------------------------

  /** The lines of the startup script up to its one `{}` field, as
      `str.format` renders them: the template's `${{NAME}}` shell references
      come out as `${NAME}`. The last line stops where the field goes. */
  const StartupHeadLines: seq<string> := [
    "#!/bin/bash",
    "# Where the Spark logs will be stored",
    "# Logs can be then be browsed from the Spark UI",
    "LOGDIR=${SCRATCH}/spark/event_logs",
    "mkdir -p ${LOGDIR}",
    "",
    "# The directory `/global/cscratch1/sd/<user>/tmpfiles` will be created if it",
    "# does not exist to store temporary files used by Spark.",
    "mkdir -p ${SCRATCH}/tmpfiles",
    "",
    "# Path to LSST miniconda installation at NERSC",
    "lSSTCONDA=\"/global/common/software/lsst/common/miniconda\"",
    "",
    "# Since the default NERSC Apache Spark runs inside of Shifter, we use",
    "# a custom local version of it. This is maintained by me (Julien Peloton)",
    "# at NERSC. If you encounter problems, let me know (peloton at lal.in2p3.fr)!",
    "SPARKPATH=\"/global/homes/p/peloton/myspark/spark-2.3.2-bin-hadoop2.7\"",
    "",
    "# Here is the environment needed for Spark to run at NERSC.",
    "export SPARK_HOME=\"${SPARKPATH}\"",
    "export PYSPARK_SUBMIT_ARGS=\"" ]

  const StartupHead: string := JoinLines(StartupHeadLines)

  /** The lines of the startup script from its `{}` field on, ending with
      the indentation of the template's closing quotes. */
  const StartupTailLines: seq<string> := [
    " pyspark-shell\"",
    "export PYTHONSTARTUP=\"${SPARKPATH}/python/pyspark/shell.py\"",
    "",
    "# Make sure the version of py4j is correct.",
    "export DESCPYTHONPATH=\"${SPARKPATH}/python/lib/py4j-0.10.7-src.zip:${SPARKPATH}/python\"",
    "",
    "# Should correspond to desc-python",
    "export PYSPARK_PYTHON=\"${lSSTCONDA}/current/bin/python\"",
    "export PYSPARK_DRIVER_PYTHON=\"${lSSTCONDA}/current/bin/ipython3\"",
    "",
    "# We use Java 8. Spark 2+ does not work with Java 7 and earlier versions.",
    "export JAVA_HOME=\"/opt/java/jdk1.8.0_51\"",
    "",
    "# desc-python activation script",
    "source ${lSSTCONDA}/kernels/python.sh",
    "    " ]

  const StartupTail: string := JoinLines(StartupTailLines)

  /** The template of the startup script: its text with every brace
      doubled, and one `{}` field where the submission arguments go. */
  const StartupTemplate: string := Escape(StartupHead) + "{}" + Escape(StartupTail)

  /** `create_desc_startup_file(path, pyspark_args)`: <path>/start_desc.sh,
      written with one `print` of the formatted template and then made
      readable, writable and executable by its owner. The text is the
      script with the submission arguments inserted verbatim: braces in
      them are not interpreted. */
  function CreateDescStartupFile(path: string, pysparkArgs: string): (script: Artifact)
    ensures script.filename == JoinPath(path, "start_desc.sh")
    ensures BaseName(script.filename) == "start_desc.sh"
    ensures script.ownerRwx
    ensures script.prints == [StartupHead + pysparkArgs + StartupTail]
  {
    JoinPathBaseName(path, "start_desc.sh");
    FormatOneField(StartupHead, pysparkArgs, StartupTail);
    var startup := Format(StartupTemplate, [pysparkArgs]);
    Artifact(JoinPath(path, "start_desc.sh"), [startup.value], true)
  }

  /** The text between a given head and tail, if `text` starts with the
      head and ends with the tail and they do not overlap. */
  function Between(text: string, head: string, tail: string): (middle: Option<string>)
    ensures middle.Some? ==> text == head + middle.value + tail
  {
    if |text| >= |head| + |tail| && text[..|head|] == head && text[|text| - |tail|..] == tail then
      var middle := text[|head|..|text| - |tail|];
      assert text == text[..|head|] + middle + text[|text| - |tail|..];
      Some(middle)
    else None
  }

  lemma BetweenRoundTrip(head: string, middle: string, tail: string)
    ensures Between(head + middle + tail, head, tail) == Some(middle)
  {
    var text := head + middle + tail;
    assert text[..|head|] == head;
    assert text[|text| - |tail|..] == tail;
    assert text[|head|..|text| - |tail|] == middle;
  }

  /** The submission arguments read back from a startup script: the text
      right after `export PYSPARK_SUBMIT_ARGS="` and before ` pyspark-shell"`,
      when the rest is the fixed script. */
  function SubmitArgsOf(text: string): (args: Option<string>)
    ensures args.Some? ==> text == StartupHead + args.value + StartupTail
  {
    Between(text, StartupHead, StartupTail)
  }

  /** Writing the startup script and reading the arguments back gives the
      arguments that were given. */
  lemma StartupArgsRoundTrip(path: string, pysparkArgs: string)
    ensures SubmitArgsOf(CreateDescStartupFile(path, pysparkArgs).prints[0]) == Some(pysparkArgs)
  {
    BetweenRoundTrip(StartupHead, pysparkArgs, StartupTail);
  }

  /** Formatting the startup template without an argument raises
      IndexError, the error `str.format` reports for its one field. */
  lemma StartupTemplateNeedsArgument()
    ensures Format(StartupTemplate, []) == Err(IndexOutOfRange)
  {
    FormatMissingArgument(StartupHead, Escape(StartupTail));
  }

  // ---------------------------------------------------------------------
  // Kernel
  // ---------------------------------------------------------------------

  /** The kernel template as the script writes it, cut at its two `{}`
      fields (the kernel name, then the startup script); in the text
      between them `{{` and `}}` stand for literal braces. */
  const KernelTemplate: string :=
    ("{{" + "\n  \"display_name\": \"")
    + "{}"
    + (" (2.3.2)\",\n" + "  \"language\": \"python\",\n" + "  \"argv\": [\n    \"")
    + "{}"
    + ("\",\n    \"-f\",\n    \"" + "{{" + "connection_file" + "}}" + "\"],\n" + "}}" + "\n    ")

  /** The kernel text before the kernel name. */
  const TemplateHead: string := "{" + "\n  \"display_name\": \""

  /** The kernel text between the kernel name and the startup script: the
      Spark version is fixed at 2.3.2. */
  const TemplateMiddle: string := " (2.3.2)\",\n" + "  \"language\": \"python\",\n" + "  \"argv\": [\n    \""

  /** The kernel text after the startup script. The argv list is closed by
      `],` and the object by `}` on the next line: the trailing comma makes
      the file invalid as strict JSON. */
  const TemplateTail: string :=
    "\",\n    \"-f\",\n    \"" + "{" + "connection_file" + "}" + "\"],\n" + "}" + "\n    "

  lemma EscapeBrace()
    ensures Escape("{") == "{{"
    ensures Escape("}") == "}}"
  {
    assert "{"[1..] == "";
    assert "}"[1..] == "";
  }

  // The brace-free pieces of the kernel template are their own escape,
  // one piece per lemma.

  lemma EscapeDisplayKey()
    ensures Escape("\n  \"display_name\": \"") == "\n  \"display_name\": \""
  {
    EscapePlain("\n  \"display_name\": \"");
  }

  lemma EscapeVersionLine()
    ensures Escape(" (2.3.2)\",\n") == " (2.3.2)\",\n"
  {
    EscapePlain(" (2.3.2)\",\n");
  }

  lemma EscapeLanguageLine()
    ensures Escape("  \"language\": \"python\",\n") == "  \"language\": \"python\",\n"
  {
    EscapePlain("  \"language\": \"python\",\n");
  }

  lemma EscapeArgvOpen()
    ensures Escape("  \"argv\": [\n    \"") == "  \"argv\": [\n    \""
  {
    EscapePlain("  \"argv\": [\n    \"");
  }

  lemma EscapeArgvRest()
    ensures Escape("\",\n    \"-f\",\n    \"") == "\",\n    \"-f\",\n    \""
  {
    EscapePlain("\",\n    \"-f\",\n    \"");
  }

  lemma EscapeConnectionFile()
    ensures Escape("connection_file") == "connection_file"
  {
    EscapePlain("connection_file");
  }

  lemma EscapeArgvClose()
    ensures Escape("\"],\n") == "\"],\n"
  {
    EscapePlain("\"],\n");
  }

  lemma EscapeClosingIndent()
    ensures Escape("\n    ") == "\n    "
  {
    EscapePlain("\n    ");
  }

  lemma EscapeKernelHead()
    ensures Escape(TemplateHead) == "{{" + "\n  \"display_name\": \""
  {
    EscapeDisplayKey();
    EscapeBrace();
    EscapeConcat("{", "\n  \"display_name\": \"");
  }

  lemma EscapeKernelMiddle()
    ensures Escape(TemplateMiddle) == TemplateMiddle
  {
    EscapeConcat(" (2.3.2)\",\n" + "  \"language\": \"python\",\n", "  \"argv\": [\n    \"");
    EscapeConcat(" (2.3.2)\",\n", "  \"language\": \"python\",\n");
    EscapeVersionLine();
    EscapeLanguageLine();
    EscapeArgvOpen();
  }

  lemma EscapeKernelTail()
    ensures Escape(TemplateTail)
         == "\",\n    \"-f\",\n    \"" + "{{" + "connection_file" + "}}" + "\"],\n" + "}}" + "\n    "
  {
    var t1 := "\",\n    \"-f\",\n    \"";
    var t2 := t1 + "{";
    var t3 := t2 + "connection_file";
    var t4 := t3 + "}";
    var t5 := t4 + "\"],\n";
    var t6 := t5 + "}";
    EscapeArgvRest();
    EscapeConnectionFile();
    EscapeArgvClose();
    EscapeClosingIndent();
    EscapeBrace();
    EscapeConcat(t6, "\n    ");
    EscapeConcat(t5, "}");
    EscapeConcat(t4, "\"],\n");
    EscapeConcat(t3, "}");
    EscapeConcat(t2, "connection_file");
    EscapeConcat(t1, "{");
  }

  /** The kernel template is its text with every brace doubled and two
      `{}` fields: the kernel name, then the startup script. */
  lemma KernelTemplateEscapes()
    ensures KernelTemplate == Escape(TemplateHead) + "{}" + Escape(TemplateMiddle) + "{}" + Escape(TemplateTail)
  {
    EscapeKernelHead();
    EscapeKernelMiddle();
    EscapeKernelTail();
  }

  /** `create_desc_kernel(path, startupname, kernelname)`: <path>/kernel.json,
      written with one `print` of the formatted template. The kernel name
      and the startup script's file name are inserted verbatim. */
  function CreateDescKernel(path: string, startupname: string, kernelname: string): (kernel: Artifact)
    ensures kernel.filename == JoinPath(path, "kernel.json") && !kernel.ownerRwx
    ensures BaseName(kernel.filename) == "kernel.json"
    ensures kernel.prints == [TemplateHead + kernelname + TemplateMiddle + startupname + TemplateTail]
  {
    JoinPathBaseName(path, "kernel.json");
    KernelTemplateEscapes();
    FormatTwoFields(TemplateHead, kernelname, TemplateMiddle, startupname, TemplateTail);
    var kernel := Format(KernelTemplate, [kernelname, startupname]);
    Artifact(JoinPath(path, "kernel.json"), [kernel.value], false)
  }

  // ---------------------------------------------------------------------
  // Main block
  // ---------------------------------------------------------------------

  /** One run of `python desc-kernel.py ...` with the given environment
      variables: `Err("HOME")` is the KeyError raised when HOME is unset.
      Otherwise it creates the Jupyter kernel directory (or uses the
      current one), writes the startup script, then the kernel that runs it,
      and reports where the kernel is. */
  function DescKernelRun(environ: map<string, string>, args: DescArgs): (r: Result<Run, string>)
    ensures r.Err? <==> "HOME" !in environ
    ensures "HOME" in environ ==>
      var path := KernelDir(environ["HOME"], StdKernel.KernelFolder, args.kernelname, args.local);
      var effects := r.value.effects;
      && |effects| == 3 && effects[0] == MakeDirs(path)
      && effects[1].Write?
      && effects[2].Write? && effects[2].artifact.filename == JoinPath(path, "kernel.json")
      && r.value.storedAt == Some(path)
  {
    if "HOME" !in environ then Err("HOME")
    else
      var path := KernelDir(environ["HOME"], StdKernel.KernelFolder, args.kernelname, args.local);
      var startupFn := CreateDescStartupFile(path, args.pysparkArgs);
      Ok(Run([MakeDirs(path), Write(startupFn),
              Write(CreateDescKernel(path, startupFn.filename, args.kernelname))],
             Some(path)))
  }

  /** Every run with HOME set writes the executable startup script, then a
      kernel that names it, into Jupyter's kernel folder or the current
      directory. The submission arguments reach the script and nothing
      else; the kernel name reaches the kernel and nothing else. */
  lemma RunWritesStartupThenKernel(environ: map<string, string>, args: DescArgs)
    requires "HOME" in environ
    ensures var path := KernelDir(environ["HOME"], StdKernel.KernelFolder, args.kernelname, args.local);
      var startupFn := JoinPath(path, "start_desc.sh");
      var run := DescKernelRun(environ, args);
      && run.Ok?
      && run.value == Run([MakeDirs(path),
                           Write(Artifact(startupFn, [StartupHead + args.pysparkArgs + StartupTail], true)),
                           Write(Artifact(JoinPath(path, "kernel.json"),
                                          [TemplateHead + args.kernelname + TemplateMiddle + startupFn + TemplateTail],
                                          false))],
                          Some(path))
  {
  }

  /** Without HOME the script stops before creating anything. */
  lemma MissingHome(environ: map<string, string>, args: DescArgs)
    requires "HOME" !in environ
    ensures DescKernelRun(environ, args) == Err("HOME")
  {
  }
}
