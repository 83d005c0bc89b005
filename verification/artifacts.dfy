/**
  What the kernel scripts produce. A script never returns its files: it
  opens each one, prints to it line by line and closes it. The model records
  each file as an `Artifact` (its name, one entry per `print(..., file=f)`
  call, and whether the script then chmods it to owner read/write/execute),
  and a whole run as the list of its filesystem effects in order.
 */
module Artifacts {
  import opened Wrappers
  import opened PyText

  /** A file written by a script. `prints` holds one entry per `print` call;
      `print` adds a newline after each entry. `ownerRwx` is set when the
      script follows the write with `os.chmod(filename, stat.S_IRWXU)`. */
  datatype Artifact = Artifact(filename: string, prints: seq<string>, ownerRwx: bool)

  /** One filesystem effect of a run: `safe_mkdir(dir)`, or writing a file. */
  datatype Effect = MakeDirs(dir: string) | Write(artifact: Artifact)

  // ---------------------------------------------------------------------
  // Where a kernel is installed
  // ---------------------------------------------------------------------

  /** The directory a script installs its kernel in. With `--local` it is
      the current directory; otherwise it is `folder`, the script's kernel
      registry below HOME (written with a slash at each end), followed by
      the kernel name. */
  function KernelDir(home: string, folder: string, kernelname: string, local: bool): (dir: string)
    requires |folder| > 0 && folder[0] == '/' && folder[|folder| - 1] == '/'
    ensures dir == CurDir <==> local
    ensures !local && '/' !in kernelname ==> BaseName(dir) == kernelname
  {
    if !local then
      var parent := home + folder;
      assert parent[|home|] == '/';
      if '/' in kernelname then parent + kernelname
      else
        JoinPathBaseName(parent, kernelname);
        parent + kernelname
    else CurDir
  }

  /** Outside `--local`, the kernel directory is what the scripts' template
      `'{}<folder>{}'.format(HOME, kernelname)` gives. */
  lemma KernelDirFormatted(home: string, folder: string, kernelname: string)
    requires |folder| > 0 && folder[0] == '/' && folder[|folder| - 1] == '/'
    requires Plain(folder)
    ensures Format("{}" + folder + "{}", [home, kernelname]) == Ok(KernelDir(home, folder, kernelname, false))
  {
    assert KernelDir(home, folder, kernelname, false) == home + folder + kernelname;
    FormatAround(home, folder, kernelname);
  }

  /** A completed run: its effects in order, and the directory named in the
      closing "Kernel stored at <path>" notice when the script prints it. */
  datatype Run = Run(effects: seq<Effect>, storedAt: Option<string>)

  // ---------------------------------------------------------------------
  // Layout of the kernel.json text
  // ---------------------------------------------------------------------

  /** An `argv` list written one JSON string per line, indented by four
      spaces, with a comma after every entry but the last. */
  function ArgvBlock(items: seq<string>): (lines: seq<string>)
    ensures |lines| == |items|
  {
    seq(|items|, i requires 0 <= i < |items| =>
      "    \"" + items[i] + (if i + 1 < |items| then "\"," else "\""))
  }

  /** Reads the entries back from lines laid out by `ArgvBlock`: drops the
      indentation and opening quote, and the closing quote and comma. */
  function ArgvItems(lines: seq<string>): (items: seq<string>)
    ensures |items| == |lines|
  {
    seq(|lines|, i requires 0 <= i < |lines| =>
      var cut := if i + 1 < |lines| then 2 else 1;
      if |lines[i]| < 5 + cut then "" else lines[i][5..|lines[i]| - cut])
  }

  /** Every argv list can be read back from its layout. */
  lemma ArgvRoundTrip(items: seq<string>)
    ensures ArgvItems(ArgvBlock(items)) == items
  {
    var lines := ArgvBlock(items);
    forall i | 0 <= i < |items|
      ensures ArgvItems(lines)[i] == items[i]
    {
      var tail := if i + 1 < |items| then "\"," else "\"";
      assert lines[i] == "    \"" + items[i] + tail;
      assert lines[i][5..|lines[i]| - |tail|] == items[i];
    }
  }

  /** The opening lines of every kernel.json: the brace, the name shown in
      the kernel picker, the language, and the key of the `argv` list. */
  function KernelHead(displayName: string): seq<string>
  {
    [ "{",
      "  \"display_name\": \"" + displayName + "\",",
      "  \"language\": \"python\",",
      "  \"argv\": [" ]
  }

  /** How the scripts print one `env` entry: key and value on one line, or
      the key on a line of its own (followed by `afterColon`) and the value on
      the next line, indented by four spaces or flush with the margin. */
  datatype Layout = Inline | Wrapped(afterColon: string, indented: bool)

  datatype EnvEntry = EnvEntry(key: string, value: string, layout: Layout)

  /** The lines of one entry; all but the last entry end with a comma. */
  function EnvEntryLines(e: EnvEntry, last: bool): (lines: seq<string>)
    ensures |lines| == if e.layout.Inline? then 1 else 2
  {
    var close := if last then "\"" else "\",";
    match e.layout
    case Inline => ["    \"" + e.key + "\": \"" + e.value + close]
    case Wrapped(afterColon, indented) =>
      ["    \"" + e.key + "\":" + afterColon,
       (if indented then "    \"" else "\"") + e.value + close]
  }

  /** The body of the `env` object. */
  function EnvBlock(entries: seq<EnvEntry>): seq<string>
  {
    if |entries| == 0 then []
    else EnvEntryLines(entries[0], |entries| == 1) + EnvBlock(entries[1..])
  }

  /** A kernel.json as the module-based and Shifter variants print it. */
  function KernelJsonLines(displayName: string, argv: seq<string>, env: seq<EnvEntry>): seq<string>
  {
    KernelHead(displayName) + ArgvBlock(argv) + ["  ],", "  \"env\": {"] + EnvBlock(env) + ["  }", "}"]
  }

  /** The opening lines and the argv list can be read back from any
      kernel.json laid out by `KernelJsonLines`. */
  lemma KernelJsonArgv(displayName: string, argv: seq<string>, env: seq<EnvEntry>)
    ensures var lines := KernelJsonLines(displayName, argv, env);
      && |lines| >= 8 + |argv|
      && lines[1] == "  \"display_name\": \"" + displayName + "\","
      && lines[3] == "  \"argv\": ["
      && lines[4 + |argv|] == "  ],"
      && ArgvItems(lines[4..4 + |argv|]) == argv
  {
    var lines := KernelJsonLines(displayName, argv, env);
    var block := ArgvBlock(argv);
    assert lines == KernelHead(displayName) + block + (["  ],", "  \"env\": {"] + EnvBlock(env) + ["  }", "}"]);
    assert lines[4..4 + |argv|] == block;
    ArgvRoundTrip(argv);
  }

  /** No key appears twice in an `env` block. */
  predicate DistinctKeys(entries: seq<EnvEntry>)
  {
    forall i, j :: 0 <= i < j < |entries| ==> entries[i].key != entries[j].key
  }

  /** The value the kernel's environment gives to `key`, if it sets it. */
  function Lookup(entries: seq<EnvEntry>, key: string): (r: Option<string>)
    ensures r.None? <==> forall i :: 0 <= i < |entries| ==> entries[i].key != key
  {
    if |entries| == 0 then None
    else if entries[0].key == key then Some(entries[0].value)
    else
      var r := Lookup(entries[1..], key);
      assert forall i :: 1 <= i < |entries| ==> entries[i] == entries[1..][i - 1];
      r
  }

  /** With distinct keys, each entry's key looks up exactly that entry's
      value. */
  lemma {:induction false} LookupEntry(entries: seq<EnvEntry>, i: nat)
    requires DistinctKeys(entries)
    requires i < |entries|
    ensures Lookup(entries, entries[i].key) == Some(entries[i].value)
  {
    if i > 0 {
      assert entries[0].key != entries[i].key;
      assert entries[1..][i - 1] == entries[i];
      LookupEntry(entries[1..], i - 1);
    }
  }

  /** `EnvBlock` of a six-entry block, one entry at a time. */
  lemma EnvBlockOfSix(entries: seq<EnvEntry>)
    requires |entries| == 6
    ensures EnvBlock(entries)
         == EnvEntryLines(entries[0], false) + (EnvEntryLines(entries[1], false) + (EnvEntryLines(entries[2], false)
          + (EnvEntryLines(entries[3], false) + (EnvEntryLines(entries[4], false) + EnvEntryLines(entries[5], true)))))
  {
    assert EnvBlock(entries[6..]) == [];
    assert EnvBlock(entries[5..]) == EnvEntryLines(entries[5], true) + EnvBlock(entries[6..]);
    assert EnvBlock(entries[4..]) == EnvEntryLines(entries[4], false) + EnvBlock(entries[5..]);
    assert EnvBlock(entries[3..]) == EnvEntryLines(entries[3], false) + EnvBlock(entries[4..]);
    assert EnvBlock(entries[2..]) == EnvEntryLines(entries[2], false) + EnvBlock(entries[3..]);
    assert EnvBlock(entries[1..]) == EnvEntryLines(entries[1], false) + EnvBlock(entries[2..]);
  }

  /** `EnvBlock` of a seven-entry block, one entry at a time. */
  lemma EnvBlockOfSeven(entries: seq<EnvEntry>)
    requires |entries| == 7
    ensures EnvBlock(entries)
         == EnvEntryLines(entries[0], false) + EnvBlock(entries[1..])
    ensures EnvBlock(entries[1..])
         == EnvEntryLines(entries[1], false) + (EnvEntryLines(entries[2], false) + (EnvEntryLines(entries[3], false)
          + (EnvEntryLines(entries[4], false) + (EnvEntryLines(entries[5], false) + EnvEntryLines(entries[6], true)))))
  {
    EnvBlockOfSix(entries[1..]);
  }
}
