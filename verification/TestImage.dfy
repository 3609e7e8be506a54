/** Publishing test suites as an image layer and discovering them again in the
extracted image. Symbolic links and the registry are not modelled. */
module TestImage {

  import opened Objects
  import opened Paths
  import opened FileTree

  const CasesName := "cases"
  const TemplatesName := "templates"

  // ---- what goes into the layer ----

  /** The first segment of a relative path. */
  function FirstPathPart(rel: string): string {
    if rel == "" || rel[0] == '/' then "" else [rel[0]] + FirstPathPart(rel[1..])
  }

  function Slashed(parts: seq<string>): string {
    if parts == [] then ""
    else if |parts| == 1 then parts[0]
    else parts[0] + "/" + Slashed(parts[1..])
  }

  /** On a path of separator-free names it is the first name. */
  lemma {:induction false} FirstPathPartIsFirst(name: string, tail: string)
    requires '/' !in name && (tail == "" || tail[0] == '/')
    ensures FirstPathPart(name + tail) == name
    decreases |name|
  {
    if name == "" {
      assert name + tail == tail;
    } else {
      assert (name + tail)[1..] == name[1..] + tail;
      FirstPathPartIsFirst(name[1..], tail);
    }
  }

  lemma FirstPathPartOfParts(parts: seq<string>)
    requires parts != [] && '/' !in parts[0]
    ensures FirstPathPart(Slashed(parts)) == parts[0]
  {
    if |parts| == 1 {
      FirstPathPartIsFirst(parts[0], "");
      assert parts[0] + "" == parts[0];
    } else {
      FirstPathPartIsFirst(parts[0], "/" + Slashed(parts[1..]));
      assert parts[0] + ("/" + Slashed(parts[1..])) == Slashed(parts);
    }
  }

  /** includeLayerEntry, on the names of the path below the suite directory. */
  predicate Include(rel: seq<string>, node: Node) {
    if rel == [] then true
    else if rel[0] != CasesName && rel[0] != TemplatesName then false
    else if |rel| == 1 then node.Dir?
    else if node.Dir? then false
    else |rel| == 2 && IsYaml(rel[1])
  }

  /** filepath.Dir of a relative path: what stands before the last separator. */
  function DirPart(rel: string): string {
    if rel == "" then ""
    else if rel[|rel| - 1] == '/' then rel[..|rel| - 1]
    else DirPart(rel[..|rel| - 1])
  }

  /** includeLayerEntry as it is written, on the relative path as text. */
  predicate IncludePath(rel: string, node: Node) {
    var base := FirstPathPart(rel);
    if base != CasesName && base != TemplatesName then false
    else if rel == base then node.Dir?
    else if node.Dir? then false
    else DirPart(rel) == base && IsYaml(rel)
  }

  lemma {:induction false} DirPartBeforeLast(head: string, name: string)
    requires '/' !in name
    ensures DirPart(head + "/" + name) == head
    decreases |name|
  {
    var rel := head + "/" + name;
    if name == "" {
      assert rel[..|rel| - 1] == head;
    } else {
      assert rel[..|rel| - 1] == head + "/" + name[..|name| - 1];
      DirPartBeforeLast(head, name[..|name| - 1]);
    }
  }

  /** Two names or more: the last, and the path of the others. */
  lemma {:induction false} SlashedLast(parts: seq<string>)
    requires |parts| >= 2
    ensures Slashed(parts) == Slashed(parts[..|parts| - 1]) + "/" + parts[|parts| - 1]
    decreases |parts|
  {
    var k := |parts| - 1;
    if |parts| == 2 {
      assert parts[1..] == [parts[1]] && parts[..1] == [parts[0]];
    } else {
      SlashedLast(parts[1..]);
      assert parts[1..][..k - 1] == parts[..k][1..];
      assert Slashed(parts[..k]) == parts[0] + "/" + Slashed(parts[1..][..k - 1]);
    }
  }

  /** A path of separator-free names is its first name exactly when it has no other. */
  lemma FirstNameAlone(parts: seq<string>)
    requires parts != []
    ensures Slashed(parts) == parts[0] <==> |parts| == 1
  {
    if |parts| > 1 {
      assert |Slashed(parts)| > |parts[0]|;
    }
  }

  /** The extension of a path is that of its last name. */
  lemma {:induction false} ExtOfLast(head: string, name: string)
    requires '/' !in name
    ensures Ext(head + "/" + name) == Ext(name)
    decreases |name|
  {
    var rel := head + "/" + name;
    if name != "" {
      assert rel[..|rel| - 1] == head + "/" + name[..|name| - 1];
      ExtOfLast(head, name[..|name| - 1]);
    }
  }

  /** The rule on names is the rule as written on the path they spell. */
  lemma IncludeAsWritten(rel: seq<string>, node: Node)
    requires rel != [] && forall i :: 0 <= i < |rel| ==> '/' !in rel[i]
    ensures IncludePath(Slashed(rel), node) == Include(rel, node)
  {
    FirstPathPartOfParts(rel);
    FirstNameAlone(rel);
    if |rel| >= 2 {
      var init, name := rel[..|rel| - 1], rel[|rel| - 1];
      SlashedLast(rel);
      DirPartBeforeLast(Slashed(init), name);
      ExtOfLast(Slashed(init), name);
      FirstNameAlone(init);
    }
  }

  /** The walk of a suite directory: what is not included is skipped whole. */
  function Walk(rel: seq<string>, node: Node): seq<Item>
    decreases node
  {
    if !Include(rel, node) then []
    else [Item(rel, LeafOf(node))] + if node.Dir? then WalkEntries(rel, node.entries) else []
  }

  function WalkEntries(rel: seq<string>, entries: seq<Entry>): seq<Item>
    decreases entries
  {
    if entries == [] then []
    else
      var last := entries[|entries| - 1];
      WalkEntries(rel, entries[..|entries| - 1]) + Walk(rel + [last.name], last.node)
  }

  /** What the walk keeps of a directory. */
  function Pruned(rel: seq<string>, entries: seq<Entry>): seq<Entry>
    decreases entries
  {
    if entries == [] then []
    else
      var last := entries[|entries| - 1];
      var rest := Pruned(rel, entries[..|entries| - 1]);
      var at := rel + [last.name];
      if Include(at, last.node) then rest + [Entry(last.name, PrunedNode(at, last.node))] else rest
  }

  function PrunedNode(rel: seq<string>, node: Node): Node
    decreases node
  {
    match node
    case File(_) => node
    case Dir(entries) => Dir(Pruned(rel, entries))
  }

  lemma PrefixAppend(at: seq<string>, a: seq<Item>, b: seq<Item>)
    ensures Prefix(at, a + b) == Prefix(at, a) + Prefix(at, b)
  {
  }

  lemma NothingPrefixed(at: seq<string>)
    ensures Prefix(at, Emit([])) == []
  {
  }

  lemma PrefixOne(at: seq<string>, path: seq<string>, leaf: Leaf)
    ensures Prefix(at, [Item(path, leaf)]) == [Item(at + path, leaf)]
  {
  }

  lemma PrefixTwice(at: seq<string>, name: string, items: seq<Item>)
    ensures Prefix(at, Prefix([name], items)) == Prefix(at + [name], items)
  {
    forall i | 0 <= i < |items| ensures at + ([name] + items[i].path) == at + [name] + items[i].path {
    }
  }

  /** The filtered walk spells out exactly the pruned tree. */
  lemma {:induction false} WalkEmitsPruned(rel: seq<string>, entries: seq<Entry>)
    ensures WalkEntries(rel, entries) == Prefix(rel, Emit(Pruned(rel, entries)))
    decreases entries
  {
    hide Prefix;
    hide Emit;
    hide EmitNode;
    hide PrunedNode;
    hide Include;
    if entries == [] {
      NothingPrefixed(rel);
    } else {
      var init, last := entries[..|entries| - 1], entries[|entries| - 1];
      WalkEmitsPruned(rel, init);
      if Include(rel + [last.name], last.node) {
        WalkEmitsEntry(rel, last);
        var kept := Entry(last.name, PrunedNode(rel + [last.name], last.node));
        EmitSnoc(Pruned(rel, init), kept);
        PrefixAppend(rel, Emit(Pruned(rel, init)),
          [Item([kept.name], LeafOf(kept.node))] + Prefix([kept.name], EmitNode(kept.node)));
      } else {
        assert Walk(rel + [last.name], last.node) == [];
      }
    }
  }

  lemma {:induction false} WalkEmitsEntry(rel: seq<string>, e: Entry)
    requires Include(rel + [e.name], e.node)
    ensures var kept := PrunedNode(rel + [e.name], e.node);
            Walk(rel + [e.name], e.node)
            == Prefix(rel, [Item([e.name], LeafOf(kept))] + Prefix([e.name], EmitNode(kept)))
    decreases e, 1
  {
    var at := rel + [e.name];
    var kept := PrunedNode(at, e.node);
    PrefixAppend(rel, [Item([e.name], LeafOf(kept))], Prefix([e.name], EmitNode(kept)));
    PrefixTwice(rel, e.name, EmitNode(kept));
    PrefixOne(rel, [e.name], LeafOf(kept));
    if e.node.Dir? {
      WalkEmitsPruned(at, e.node.entries);
    }
  }

  // ---- publishing ----

  function Find(entries: seq<Entry>, name: string): Option<Node> {
    if entries == [] then None
    else if entries[|entries| - 1].name == name then Some(entries[|entries| - 1].node)
    else Find(entries[..|entries| - 1], name)
  }

  /** A visible directory that holds something named cases. */
  predicate IsTestDir(e: Entry) {
    e.node.Dir? && !Hidden(e.name) && Find(e.node.entries, CasesName).Some?
  }

  function TestDirs(root: seq<Entry>): seq<Entry> {
    if root == [] then []
    else
      var last := root[|root| - 1];
      TestDirs(root[..|root| - 1]) + if IsTestDir(last) then [last] else []
  }

  /** The layer: the walk of each test directory, named from the root. */
  function Layer(dirs: seq<Entry>): seq<Item> {
    if dirs == [] then []
    else
      var last := dirs[|dirs| - 1];
      Layer(dirs[..|dirs| - 1]) + Prefix([last.name], Walk([], last.node))
  }

  method FindTestDirs(root: seq<Entry>) returns (dirs: seq<Entry>)
    ensures dirs == TestDirs(root)
  {
    hide Find;
    hide Hidden;
    dirs := [];
    for n := 0 to |root|
      invariant dirs == TestDirs(root[..n])
    {
      assert root[..n + 1][..n] == root[..n];
      if !root[n].node.Dir? || Hidden(root[n].name) {
        continue;
      }
      if Find(root[n].node.entries, CasesName).None? {
        continue;
      }
      dirs := dirs + [root[n]];
    }
    assert root[..|root|] == root;
  }

  /** What is published, unless there is no test directory. */
  function Published(root: seq<Entry>): Option<seq<Item>> {
    if TestDirs(root) == [] then None else Some(Layer(TestDirs(root)))
  }

  method Publish(root: seq<Entry>) returns (layer: Option<seq<Item>>)
    ensures layer == Published(root)
  {
    hide Walk;
    var dirs := FindTestDirs(root);
    if |dirs| == 0 {
      return None;
    }
    var items: seq<Item> := [];
    for n := 0 to |dirs|
      invariant items == Layer(dirs[..n])
    {
      assert dirs[..n + 1][..n] == dirs[..n];
      items := items + Prefix([dirs[n].name], Walk([], dirs[n].node));
    }
    assert dirs[..|dirs|] == dirs;
    return Some(items);
  }

  function PrunedSuite(e: Entry): Entry {
    Entry(e.name, PrunedNode([], e.node))
  }

  function PrunedSuites(dirs: seq<Entry>): (r: seq<Entry>)
    ensures |r| == |dirs| && forall i :: 0 <= i < |r| ==> r[i] == PrunedSuite(dirs[i])
  {
    seq(|dirs|, i requires 0 <= i < |dirs| => PrunedSuite(dirs[i]))
  }

  lemma {:induction false} LayerEmitsPruned(dirs: seq<Entry>)
    requires forall i :: 0 <= i < |dirs| ==> dirs[i].node.Dir?
    ensures Layer(dirs) == Emit(PrunedSuites(dirs))
  {
    hide Prefix;
    hide Walk;
    hide EmitNode;
    hide PrunedNode;
    if dirs != [] {
      var init, last := dirs[..|dirs| - 1], dirs[|dirs| - 1];
      LayerEmitsPruned(init);
      LastSuiteEmitted(last);
      EmitSnoc(PrunedSuites(init), PrunedSuite(last));
      assert PrunedSuites(dirs) == PrunedSuites(init) + [PrunedSuite(last)];
    }
  }

  lemma LastSuiteEmitted(e: Entry)
    requires e.node.Dir?
    ensures var kept := PrunedSuite(e);
            Prefix([e.name], Walk([], e.node))
              == [Item([kept.name], LeafOf(kept.node))] + Prefix([kept.name], EmitNode(kept.node))
  {
    hide Prefix;
    hide WalkEntries;
    hide Pruned;
    hide Emit;
    var kept := PrunedSuite(e).node;
    WalkEmitsPruned([], e.node.entries);
    PrefixNothing(EmitNode(kept));
    PrefixAppend([e.name], [Item([], Folder)], EmitNode(kept));
    PrefixOne([e.name], [], Folder);
    assert [e.name] + [] == [e.name];
  }

  lemma PrefixNothing(items: seq<Item>)
    ensures Prefix([], items) == items
  {
    forall i | 0 <= i < |items| ensures [] + items[i].path == items[i].path {
    }
  }

  // ---- pruning keeps trees proper ----

  /** Pruning drops entries and changes no name. */
  lemma {:induction false} PrunedComesFrom(rel: seq<string>, entries: seq<Entry>, e: Entry)
    requires e in Pruned(rel, entries)
    ensures exists i ::
      0 <= i < |entries| && e == Entry(entries[i].name, PrunedNode(rel + [entries[i].name], entries[i].node))
    decreases |entries|
  {
    var k := |entries| - 1;
    if e in Pruned(rel, entries[..k]) {
      PrunedComesFrom(rel, entries[..k], e);
      var i :| 0 <= i < k
        && e == Entry(entries[..k][i].name, PrunedNode(rel + [entries[..k][i].name], entries[..k][i].node));
      assert entries[..k][i] == entries[i];
    } else {
      assert e.name == entries[k].name;
    }
  }

  lemma {:induction false} PrunedProper(rel: seq<string>, entries: seq<Entry>)
    requires Proper(entries)
    ensures Proper(Pruned(rel, entries))
    decreases entries
  {
    if entries != [] {
      var init, last := entries[..|entries| - 1], entries[|entries| - 1];
      PrunedProper(rel, init);
      var kept := Pruned(rel, init);
      if Include(rel + [last.name], last.node) {
        forall i | 0 <= i < |kept| ensures Less(kept[i].name, last.name) {
          PrunedComesFrom(rel, init, kept[i]);
        }
        if last.node.Dir? {
          PrunedProper(rel + [last.name], last.node.entries);
        }
        ProperSnoc(kept, Entry(last.name, PrunedNode(rel + [last.name], last.node)));
      }
    }
  }

  lemma ProperSnoc(entries: seq<Entry>, e: Entry)
    requires Proper(entries) && AllBefore(entries, e.name) && !Whiteout(e.name) && ProperNode(e.node)
    ensures Proper(entries + [e])
  {
  }

  lemma {:induction false} TestDirsFrom(root: seq<Entry>)
    requires Proper(root)
    ensures Proper(TestDirs(root))
    ensures forall e :: e in TestDirs(root) ==> e in root && IsTestDir(e)
  {
    hide IsTestDir;
    if root != [] {
      var init, last := root[..|root| - 1], root[|root| - 1];
      TestDirsFrom(init);
      if IsTestDir(last) {
        forall i | 0 <= i < |TestDirs(init)| ensures Less(TestDirs(init)[i].name, last.name) {
          assert TestDirs(init)[i] in init;
        }
        ProperSnoc(TestDirs(init), last);
      }
    }
  }

  lemma {:induction false} SuitesProper(dirs: seq<Entry>)
    requires Proper(dirs)
    ensures Proper(PrunedSuites(dirs))
  {
    forall i | 0 <= i < |dirs| ensures ProperNode(PrunedSuites(dirs)[i].node) {
      assert ProperNode(dirs[i].node);
      if dirs[i].node.Dir? {
        PrunedProper([], dirs[i].node.entries);
      }
    }
  }

  /** The extracted image is the test directories, each pruned to its cases and
      templates. */
  lemma ExtractPublished(root: seq<Entry>)
    requires Proper(root)
    ensures Extracted([], Layer(TestDirs(root))) == Some(PrunedSuites(TestDirs(root)))
  {
    TestDirsFrom(root);
    var dirs := TestDirs(root);
    assert forall i :: 0 <= i < |dirs| ==> dirs[i] in dirs && IsTestDir(dirs[i]);
    LayerEmitsPruned(dirs);
    SuitesProper(dirs);
    ExtractEmitted(PrunedSuites(dirs));
  }
}
