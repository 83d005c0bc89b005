# Jupyter kernels for Apache Spark at NERSC, modelled in Dafny

Three small Python scripts write a Jupyter kernel that starts Apache Spark at
NERSC. Each one writes a kernel directory holding a `kernel.json` and, when
the kernel needs one, a startup shell script:

- `makekernel.py` writes `start_spark.sh`, which loads a Spark module, and a
  `kernel.json` that runs it. Both go into `~/.ipython/kernels/<name>`.
- `std-kernel.py` writes into `~/.local/share/jupyter/kernels/<name>`. It
  builds one of two kinds of kernel:
  - the module-based ("standard") kernel, with an executable startup script;
  - a kernel that runs Spark inside a Shifter container image.

  The choice depends on the Spark version and on the image argument.
- `desc-kernel.py` writes a kernel for the LSST DESC Python environment. It
  fills both of its files from `str.format` templates.

The model treats each script as a function from its inputs to what it
produces:

- The inputs are the parsed command-line arguments and the process
  environment, given as a `map`.
- A written file is an `Artifact`. It records:
  - the file's name;
  - one entry per `print(..., file=f)` call, without `print`'s own newline;
  - whether the script then makes the file owner read/write/execute.
- A whole run is the ordered list of its effects (directories created,
  files written) plus the directory named in its closing "Kernel stored at"
  notice. A missing `HOME` gives `Err("HOME")`; in Python this is the
  `KeyError` that stops the script before anything is created.

The Python behaviour the scripts depend on is stated in `PyText`:

- the ordering of `str`, which the version dispatch uses;
- `os.path.join` and `os.path.basename`;
- `str.format` with `{}` fields and `{{` / `}}` escapes.

Modules:

| module | file | contents |
|---|---|---|
| `Wrappers` | wrappers.dfy | `Option`, `Result` |
| `PyText` | python_text.dfy | string order, paths, `str.format` |
| `Artifacts` | artifacts.dfy | files, effects, runs; the kernel.json line layout |
| `StdKernel` | std_kernel.dfy | std-kernel.py |
| `MakeKernel` | make_kernel.dfy | makekernel.py |
| `DescKernel` | desc_kernel.dfy | desc-kernel.py |
| `ScriptRelations` | script_relations.dfy | how the three scripts' outputs relate |

## Model

| member | source | states |
|---|---|---|
| PyText.LexLe | std-kernel.py:340 | Python's `<=` on `str`: `a <= b` holds exactly when `b < a` does not |
| PyText.LexLtCharacterized | std-kernel.py:340 | `LexLt`, the recursive `str` order behind `spark_version <= "2.1.0"`, holds exactly when the left string is a proper prefix of the right, or is smaller at the first differing code point |
| PyText.ProperPrefixStep | std-kernel.py:340 | Dropping a shared first code point keeps a proper prefix a proper prefix, and makes no new one |
| PyText.SmallerAtFirstDifferenceStep | std-kernel.py:340 | Dropping a shared first code point keeps which string is smaller at the first difference |
| PyText.LexLtIrreflexive | std-kernel.py:340 | No string is below itself |
| PyText.LexLtTransitive | std-kernel.py:340 | The string order is transitive |
| PyText.LexLtTrichotomy | std-kernel.py:340 | Of two strings, exactly one is below the other or they are equal; `LexLt` never holds between equal strings |
| PyText.LexLeTotalOrder | std-kernel.py:340 | `<=` on strings is reflexive, antisymmetric, transitive and total |
| PyText.JoinPathParts | std-kernel.py:44 | `JoinPath`, POSIX `os.path.join(a, b)`: the result always ends with `b`; an absolute `b` is the whole result; otherwise the result is `a`, then exactly one `/` unless `a` is empty or ends with one, then `b` |
| PyText.LastSlash | std-kernel.py:44 | The index found is the last `/` in the path, or -1 when there is none |
| PyText.JoinPathBaseName | std-kernel.py:44 | `os.path.join(dir, name)` with a slash-free name has `name` as its base name, whatever `dir` is |
| PyText.FormatPlain | desc-kernel.py:83 | `Format`, `str.format` with `{}` fields and brace escapes: a template without braces formats to itself, whatever the arguments (EscapeRoundTrip and FormatField give the rest) |
| PyText.EscapeConcat | desc-kernel.py:48-83 | Doubling braces distributes over concatenation |
| PyText.EscapePlain | desc-kernel.py:112-120 | Text without braces is its own escape |
| PyText.PrependTwice | desc-kernel.py:83 | Prefixing a formatting result twice prefixes it once with the joined text, and errors pass through |
| PyText.FormatPlainStep | desc-kernel.py:83 | `str.format` copies a character other than a brace |
| PyText.FormatBraceStep | desc-kernel.py:83 | `str.format` turns `{{` into `{` and `}}` into `}` |
| PyText.PrependEmpty | desc-kernel.py:83 | Prefixing the empty string changes no formatting result |
| PyText.FormatEscapedPrefix | desc-kernel.py:83 | Formatting a brace-escaped text followed by anything gives that text back, followed by the formatted rest |
| PyText.EscapeRoundTrip | desc-kernel.py:83 | Formatting an escaped text gives the text back, whatever the arguments |
| PyText.FormatField | desc-kernel.py:83 | A `{}` field takes the next positional argument verbatim |
| PyText.FormatMissingArgument | desc-kernel.py:83 | A `{}` field with no argument left raises IndexError |
| PyText.FormatFieldAfter | desc-kernel.py:83 | Escaped text, then a field, then the rest: the text, then the argument, then the formatted rest |
| PyText.FormatOneField | desc-kernel.py:48-83 | A one-field template whose other text is escaped formats to that text with the argument inserted verbatim |
| PyText.FormatAround | std-kernel.py:323 | A template of a field, brace-free text and a field formats to the first argument, the text, then the second argument |
| PyText.FormatTwoFields | desc-kernel.py:112-120 | A two-field template formats to its text with both arguments inserted in order, verbatim |
| Artifacts.KernelDir | std-kernel.py:320-325 | The directory the three scripts install into, given the script's kernel folder: the current directory exactly with `--local`; otherwise its last component is the kernel name (for a name without `/`) |
| Artifacts.KernelDirFormatted | makekernel.py:203-207 | Without `--local`, the kernel directory is the scripts' two-field template `{}<folder>{}` formatted with HOME and the kernel name |
| Artifacts.ArgvBlock | std-kernel.py:103-109 | The argv layout has one line per argv entry |
| Artifacts.ArgvItems | std-kernel.py:103-109 | Reading argv back yields one entry per line |
| Artifacts.ArgvRoundTrip | std-kernel.py:103-109 | Every argv list can be read back from its layout |
| Artifacts.EnvEntryLines | std-kernel.py:116-138 | An inline env entry is printed on one line; a wrapped one on two |
| Artifacts.KernelJsonArgv | std-kernel.py:90-141 | Every kernel.json printed line by line has the display-name line, the `"argv": [` line, argv read back exactly from the following lines, and `],` after them |
| Artifacts.Lookup | std-kernel.py:116-138 | An env key is absent from the lookup exactly when no entry has that key |
| Artifacts.LookupEntry | std-kernel.py:116-138 | With distinct keys, each entry's key looks up that entry's value |
| Artifacts.EnvBlockOfSix | std-kernel.py:116-138 | A six-entry env block is its entries' lines in order, the last one without a comma |
| Artifacts.EnvBlockOfSeven | std-kernel.py:220-243 | A seven-entry env block is its entries' lines in order, the last one without a comma |
| StdKernel.DefaultArgs | std-kernel.py:248-289 | The defaults: version "2.3.0", submission arguments `--master local[4]`, no image and not local; the default version selects the Shifter kernel with NERSC's image |
| StdKernel.SelectVariant | std-kernel.py:332-358 | The dispatch: an image always selects Shifter with that image; the standard kernel only for versions `<= "2.1.0"`; Shifter without an image only for "2.3.0"; rejection only without an image and for a version other than "2.3.0" (DispatchTable gives both directions) |
| StdKernel.DispatchTable | std-kernel.py:332-358 | Both directions of each branch of the dispatch. A given image selects Shifter with that image. Otherwise `<= "2.1.0"` in string order selects the standard kernel; exactly "2.3.0" selects Shifter with no image; everything else is rejected |
| StdKernel.DispatchExamples | std-kernel.py:255-262 | The dispatch on sample versions: "2.1" and "10.0.0" sort below "2.1.0" and select the standard kernel; "2.1.1", "2.2.0" and "9.9.9" are rejected; any version with an image builds Shifter |
| StdKernel.StandardIsDownwardClosed | std-kernel.py:340 | Every version that sorts below one selecting the standard kernel selects it too |
| StdKernel.CreateStartupFile | std-kernel.py:27-57 | `<path>/start_spark.sh` is made owner-executable. It holds four lines: the shebang, `module load spark/<v>`, `start-all.sh`, and the module Python running ipykernel with the script's arguments |
| StdKernel.CreateStandardKernel | std-kernel.py:59-141 | `<path>/kernel.json` is not made executable. Its display line is `<name> (<v>)`, and its argv is the given startup script, then `-m ipykernel -f {connection_file}` |
| StdKernel.StandardKernelPrints | std-kernel.py:90-141 | The standard kernel.json, print by print |
| StdKernel.StandardEnvText | std-kernel.py:116-138 | The standard env block, print by print, including its wrapped entries |
| StdKernel.StandardKernelEnv | std-kernel.py:84-138 | The standard env has distinct keys. It sets SPARK_HOME to the module's Spark, the submission arguments plus `pyspark-shell`, and PYTHONPATH `<spark>/python:<spark>/python/lib/py4j-0.10.4-src.zip`. It sets the module Python and no JAVA_HOME |
| StdKernel.TmpFolderParts | std-kernel.py:173-178 | `TmpFolder`: the temporary folder is named `tmpfiles` and lies in $SCRATCH when SCRATCH is set, otherwise in the kernel directory |
| StdKernel.ImageOptionParts | std-kernel.py:198-203 | `ImageOption`: the option is `--image=` followed by the given image when it is non-empty, otherwise by `nersc/spark-<v>:v1` |
| StdKernel.CreateShifterKernel | std-kernel.py:143-246 | First the temporary folder is created: `$SCRATCH/tmpfiles`, or `<path>/tmpfiles` without SCRATCH. Then a non-executable `<path>/kernel.json` is written. Its argv is `shifter`, the image option, the volume mount of that folder as /tmp, then the image's Python running ipykernel |
| StdKernel.ShifterKernelPrints | std-kernel.py:183-246 | The Shifter kernel.json, print by print, with both image branches |
| StdKernel.ShifterArgvText | std-kernel.py:196-213 | The Shifter argv block, print by print |
| StdKernel.ShifterEnvText | std-kernel.py:220-243 | The Shifter env block, print by print |
| StdKernel.ShifterEnvKeys | std-kernel.py:220-243 | The Shifter env sets each variable once |
| StdKernel.ShifterKernelEnv | std-kernel.py:168-243 | The Shifter env has distinct keys. It sets SPARK_HOME `/usr/local/bin//spark-<v>`, whose path holds a double slash, and PYTHONPATH with py4j 0.10.6. It sets the image's Python and JAVA_HOME `/usr` |
| StdKernel.ShifterImage | std-kernel.py:198-203 | The kernel uses the given image only when it is non-empty, otherwise `nersc/spark-<v>:v1`. An empty image still selects the Shifter branch of the dispatch |
| StdKernel.KernelDirFromTemplate | std-kernel.py:320-325 | Without `--local` the kernel directory is `'{}/.local/share/jupyter/kernels/{}'.format(HOME, kernelname)`; desc-kernel.py uses the same folder |
| StdKernel.StdKernelRun | std-kernel.py:317-361 | A run fails exactly when HOME is unset (RunShape and AcceptedRunEndsWithKernel give the rest) |
| StdKernel.RunShape | std-kernel.py:318-361 | With HOME, a run first creates the kernel directory, and reports that directory exactly when the dispatch accepts the arguments |
| StdKernel.AcceptedRunEndsWithKernel | std-kernel.py:332-361 | With HOME and arguments the dispatch accepts, a run has three effects, the last writing `<dir>/kernel.json`, for both the standard and the Shifter kernel |
| StdKernel.ShifterRunEndsWithKernel | std-kernel.py:332-352 | The same for both ways of reaching the Shifter kernel: with an image, or with "2.3.0" and no image |
| StdKernel.ShifterRunEffects | std-kernel.py:143-246 | The kernel directory followed by `create_shifter_kernel`'s effects is three effects, the last writing `<dir>/kernel.json` |
| StdKernel.CustomImageRun | std-kernel.py:318-361 | With HOME and an image, a run is: create the kernel directory, then the Shifter kernel's effects, then report the directory |
| StdKernel.ModuleRun | std-kernel.py:318-361 | With HOME, no image and a version `<= "2.1.0"`, a run is: create the directory, write the executable startup script, write the standard kernel whose argv starts with that script's file name, and report the directory |
| StdKernel.DefaultShifterRun | std-kernel.py:318-361 | With HOME, no image and version "2.3.0", a run is: create the directory, then the Shifter kernel's effects with no image |
| StdKernel.RejectedRun | std-kernel.py:318-361 | Any other version without an image creates the kernel directory, writes nothing and prints no "Kernel stored" notice |
| StdKernel.MissingHome | std-kernel.py:318 | Without HOME the run fails before any effect |
| MakeKernel.DefaultArgs | makekernel.py:155-185 | Only the kernel name is required. The defaults are version "2.1.0", submission arguments `--master local[*]`, and not local |
| MakeKernel.CreateStartupFile | makekernel.py:43-70 | `<path>/start_spark.sh` with the same four lines as std-kernel.py's, but its mode is left alone |
| MakeKernel.CreateKernel | makekernel.py:73-152 | `<path>/kernel.json` is not made executable. Its display line is `<name> (<v>)` and its argv is the startup script running ipykernel |
| MakeKernel.KernelPrints | makekernel.py:101-152 | This kernel.json, print by print |
| MakeKernel.KernelEnvText | makekernel.py:127-149 | This env block, print by print |
| MakeKernel.KernelEnvEntries | makekernel.py:96-149 | The env has distinct keys and the module's SPARK_HOME and the submission arguments. Its PYTHONPATH entries are joined by a comma. It sets no JAVA_HOME |
| MakeKernel.KernelDirFromTemplate | makekernel.py:203-209 | Without `--local` the kernel directory is `'{}/.ipython/kernels/{}'.format(HOME, kernelname)` |
| MakeKernel.MakeKernelRun | makekernel.py:200-220 | A run fails exactly when HOME is unset. Otherwise it has three effects: create the kernel directory, write `<dir>/start_spark.sh` without execute permission, write `<dir>/kernel.json`; and it reports the directory |
| MakeKernel.RunWritesStartupThenKernel | makekernel.py:200-220 | With HOME, a run is: create `<HOME>/.ipython/kernels/<name>` (or use the current directory), write the startup script, write the kernel whose argv starts with that script's name, and report the directory. The startup script is not executable |
| MakeKernel.MissingHome | makekernel.py:201 | Without HOME the run fails before any effect |
| DescKernel.DefaultArgs | desc-kernel.py:125-147 | Only the kernel name is required. The defaults are submission arguments `--master local[4]` and not local |
| DescKernel.CreateDescStartupFile | desc-kernel.py:27-91 | `<path>/start_desc.sh` is made owner-executable. It holds one print of `StartupTemplate` formatted with the arguments: the script with the submission arguments inserted verbatim after `export PYSPARK_SUBMIT_ARGS="` |
| DescKernel.Between | desc-kernel.py:68 | A text found between a head and a tail rebuilds the original |
| DescKernel.BetweenRoundTrip | desc-kernel.py:68 | The text between a head and a tail is found again |
| DescKernel.SubmitArgsOf | desc-kernel.py:68 | Arguments read back from a script rebuild that script |
| DescKernel.StartupArgsRoundTrip | desc-kernel.py:27-91 | The submission arguments can be read back from every script written |
| DescKernel.StartupTemplateNeedsArgument | desc-kernel.py:48-83 | Formatting the startup template with no argument raises IndexError |
| DescKernel.EscapeBrace | desc-kernel.py:112-120 | A single brace escapes to the doubled brace the template writes |
| DescKernel.EscapeDisplayKey | desc-kernel.py:113 | The display-name key has no braces, so it is its own escape |
| DescKernel.EscapeVersionLine | desc-kernel.py:113 | The version suffix has no braces, so it is its own escape |
| DescKernel.EscapeLanguageLine | desc-kernel.py:114 | The language line has no braces, so it is its own escape |
| DescKernel.EscapeArgvOpen | desc-kernel.py:115-116 | The argv opening has no braces, so it is its own escape |
| DescKernel.EscapeArgvRest | desc-kernel.py:116-118 | The `-f` entry has no braces, so it is its own escape |
| DescKernel.EscapeConnectionFile | desc-kernel.py:118 | The connection-file name has no braces, so it is its own escape |
| DescKernel.EscapeArgvClose | desc-kernel.py:118 | The argv close has no braces, so it is its own escape |
| DescKernel.EscapeClosingIndent | desc-kernel.py:119-120 | The trailing indentation has no braces, so it is its own escape |
| DescKernel.EscapeKernelHead | desc-kernel.py:112-113 | The template text before the kernel-name field is the escaped head |
| DescKernel.EscapeKernelMiddle | desc-kernel.py:113-116 | The template text between the two fields is the escaped middle |
| DescKernel.EscapeKernelTail | desc-kernel.py:116-120 | The template text after the startup field is the escaped tail: `{{connection_file}}` and `}}` become single braces |
| DescKernel.KernelTemplateEscapes | desc-kernel.py:112-120 | The kernel template (`KernelTemplate`, written as the source's literal) is its text with every brace doubled, plus two `{}` fields |
| DescKernel.CreateDescKernel | desc-kernel.py:93-123 | `<path>/kernel.json` is not made executable and holds one print. The kernel name is inserted after `"display_name": "`, followed by ` (2.3.2)`, and the startup script's name becomes the first argv entry. The text ends with `"],` and a lone `}` |
| DescKernel.DescKernelRun | desc-kernel.py:175-194 | A run fails exactly when HOME is unset. Otherwise it has three effects: create std-kernel.py's kernel directory, write a file, write `<dir>/kernel.json`; and it reports the directory (RunWritesStartupThenKernel names the startup script) |
| DescKernel.RunWritesStartupThenKernel | desc-kernel.py:176-194 | With HOME, a run is: create the Jupyter kernel directory (or use the current one), write the executable startup script with the arguments, write the kernel naming that script, and report the directory |
| DescKernel.MissingHome | desc-kernel.py:176 | Without HOME the run fails before any effect |
| ScriptRelations.StartupScriptsAgree | std-kernel.py:27-57 | makekernel.py and std-kernel.py write the same start_spark.sh text. Only the latter makes it executable |
| ScriptRelations.KernelsDifferOnlyInPythonPath | makekernel.py:140-142 | For the same arguments, the two module kernels are 22 identical lines except the PYTHONPATH value: a comma separator in makekernel.py, a colon in std-kernel.py |
| ScriptRelations.DefaultVersions | makekernel.py:164 | makekernel.py's default "2.1.0" selects std-kernel.py's module kernel. std-kernel.py's default "2.3.0" selects Shifter with the default image |
| ScriptRelations.DescSharesStdKernelFile | desc-kernel.py:176-194 | Runs of desc-kernel.py and std-kernel.py with the same HOME, kernel name and `--local` choice create the same kernel directory first and write the same kernel.json last, so the later run overwrites the other's kernel (when std-kernel.py accepts the version) |

## Left out

- `safe_mkdir` is not part of this model. Each call is the effect
  `MakeDirs(dir)`; the existence check, `os.makedirs`, the `errno` test and
  its notice are left out. makekernel.py's own copy uses `errno` without
  importing it, which matters only when `os.makedirs` fails.
- Files, directories, `os.chmod` and `os.environ` are not touched. The
  environment is a `map` parameter, and the chmod is the `ownerRwx` flag.
- Argument parsing is left out. `argparse` is assumed to deliver the
  arguments; only its defaults are modelled.
- The notices printed to the terminal are left out: the resource note, "Loading
  custom shifter image...", and the "Kernel type not understood" message. Only
  "Kernel stored at" is kept, as `Run.storedAt`.
- `print` adds a newline after each entry. The model leaves this newline
  implicit.
- Whether a written kernel.json is valid JSON is not claimed. desc-kernel.py's
  template, for one, ends its argv with `],` before the closing brace.
- `os.path.join` is modelled for two POSIX components. `os.path.abspath`
  (used only by `safe_mkdir`) is left out.
- `str.format` is modelled for `{}` fields and brace escapes only. These are
  the only fields the templates use. Numbered, named and formatted fields
  are reported as errors, not interpreted.
- DescKernel.CreateDescStartupFile: the startup template is held as the text
  it renders to (`StartupHead`, the field, `StartupTail`), with every brace
  doubled. The model does not prove that this is character for character the
  source's literal, whose `${{...}}` references it writes as `${...}`.
  desc-kernel.py's kernel template, by contrast, is written in the source's
  own escaped form and proved to escape its rendered text.
- Strings are sequences of Dafny `char`s, which cannot hold the lone
  surrogates a Python `str` taken from the command line or the environment
  may carry. Printing such a string raises `UnicodeEncodeError` in the
  script; the model has no such failure.
- The shell scripts' own behaviour (loading modules, starting Spark) and
  Jupyter's use of the kernel are outside these scripts.
