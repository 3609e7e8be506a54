/** Which entries of a listing count as case files, suites and test directories, said of
their names, and that filtering a listing goes entry by entry. */
module FilterLaws {

  import opened Objects
  import opened Paths
  import opened FileTree
  import opened TestImage
  import opened SuiteViews
  import Engine
  import SuiteRun

  // ---- names ----

  predicate EndsWith(name: string, suffix: string) {
    |suffix| <= |name| && name[|name| - |suffix|..] == suffix
  }

  lemma HiddenIff(name: string)
    ensures Hidden(name) <==> "." <= name
  {
  }

  lemma SuffixGrows(name: string, suffix: string, c: char)
    requires EndsWith(name, suffix)
    ensures EndsWith(name + [c], suffix + [c])
  {
    assert (name + [c])[|name| - |suffix|..] == name[|name| - |suffix|..] + [c];
  }

  lemma {:induction false} ExtIsSuffix(name: string)
    ensures EndsWith(name, Ext(name))
    decreases |name|
  {
    if name != "" && name[|name| - 1] != '/' && name[|name| - 1] != '.' {
      var init, last := name[..|name| - 1], name[|name| - 1];
      ExtIsSuffix(init);
      assert name == init + [last];
      if Ext(init) != "" {
        SuffixGrows(init, Ext(init), last);
      }
    }
  }

  /** A file is a case file exactly when its name ends in .yaml, lower case. */
  lemma CaseFileIff(name: string)
    ensures IsCaseFile(name) <==> EndsWith(name, ".yaml")
  {
    ExtIsSuffix(name);
    if EndsWith(name, ".yaml") {
      var stem := name[..|name| - 5];
      assert name == stem + "." + "yaml";
      ExtFromLastDot(stem, "yaml");
    }
  }

  // ---- listings ----

  /** The case files of two listings in a row are those of the one, then of the other; of a
      single entry, that entry if it is no directory and its name ends in .yaml. */
  lemma {:induction false} CaseFilesAppend(a: seq<SuiteRun.CaseFile>, b: seq<SuiteRun.CaseFile>)
    ensures SuiteRun.CaseFiles(a + b) == SuiteRun.CaseFiles(a) + SuiteRun.CaseFiles(b)
    decreases |b|
  {
    hide IsCaseFile;
    if b == [] {
      assert a + b == a;
    } else {
      CaseFilesAppend(a, b[..|b| - 1]);
      assert (a + b)[..|a + b| - 1] == a + b[..|b| - 1];
    }
  }

  lemma CaseFileAlone(f: SuiteRun.CaseFile)
    ensures SuiteRun.CaseFiles([f]) == if !f.isDir && EndsWith(f.name, ".yaml") then [f] else []
  {
    CaseFileIff(f.name);
    hide IsCaseFile;
    assert [f][..0] == [];
  }

  /** Likewise the directories a run discovers: directories whose name does not begin with
      a dot. */
  lemma {:induction false} DiscoveredAppend(a: seq<Engine.DirEntry>, b: seq<Engine.DirEntry>)
    ensures Engine.Discovered(a + b) == Engine.Discovered(a) + Engine.Discovered(b)
    decreases |b|
  {
    hide Hidden;
    if b == [] {
      assert a + b == a;
    } else {
      DiscoveredAppend(a, b[..|b| - 1]);
      assert (a + b)[..|a + b| - 1] == a + b[..|b| - 1];
    }
  }

  lemma DiscoveredAlone(d: Engine.DirEntry)
    ensures Engine.Discovered([d]) == if d.isDir && !("." <= d.name) then [d.name] else []
  {
    assert [d][..0] == [];
  }

  /** The test directories that are published: directories whose name does not begin with a
      dot and that hold something named cases. */
  lemma {:induction false} TestDirsAppend(a: seq<Entry>, b: seq<Entry>)
    ensures TestDirs(a + b) == TestDirs(a) + TestDirs(b)
    decreases |b|
  {
    hide IsTestDir;
    if b == [] {
      assert a + b == a;
    } else {
      TestDirsAppend(a, b[..|b| - 1]);
      assert (a + b)[..|a + b| - 1] == a + b[..|b| - 1];
    }
  }

  lemma TestDirAlone(e: Entry)
    ensures TestDirs([e])
         == if e.node.Dir? && !("." <= e.name) && (exists x :: x in e.node.entries && x.name == "cases")
            then [e] else []
  {
    assert [e][..0] == [] && TestDirs([]) == [];
    if e.node.Dir? {
      FoundIff(e.node.entries, CasesName);
    }
    hide Find;
  }

  lemma {:induction false} FoundIff(entries: seq<Entry>, name: string)
    ensures Find(entries, name).Some? <==> exists x :: x in entries && x.name == name
  {
    if entries != [] {
      var k := |entries| - 1;
      FoundIff(entries[..k], name);
      assert entries == entries[..k] + [entries[k]];
      if entries[k].name == name {
        assert entries[k] in entries;
      } else if x :| x in entries && x.name == name {
        assert x in entries[..k];
      }
    }
  }

  /** The case files and templates of a suite directory: entries whose name ends in .yaml;
      case files are regular files, templates whatever the pattern matches. */
  lemma {:induction false} EntriesAppend(a: seq<Entry>, b: seq<Entry>)
    ensures CaseEntries(a + b) == CaseEntries(a) + CaseEntries(b)
    ensures TemplateEntries(a + b) == TemplateEntries(a) + TemplateEntries(b)
    decreases |b|
  {
    hide IsCaseFile;
    if b == [] {
      assert a + b == a;
    } else {
      EntriesAppend(a, b[..|b| - 1]);
      assert (a + b)[..|a + b| - 1] == a + b[..|b| - 1];
    }
  }

  lemma EntryAlone(e: Entry)
    ensures CaseEntries([e]) == if e.node.File? && EndsWith(e.name, ".yaml") then [e] else []
    ensures TemplateEntries([e]) == if EndsWith(e.name, ".yaml") then [e] else []
  {
    CaseFileIff(e.name);
    hide IsCaseFile;
    assert [e][..0] == [];
  }
}
