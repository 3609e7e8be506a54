/** Directory trees, the tar items that spell them out, and extraction. */
module FileTree {

  import opened Objects

  /** A regular file or a directory, whose entries ReadDir lists in name order. */
  datatype Node = File(content: string) | Dir(entries: seq<Entry>)

  datatype Entry = Entry(name: string, node: Node)

  /** Name order: the first difference decides, a proper prefix comes first. */
  predicate Less(a: string, b: string) {
    if b == "" then false
    else if a == "" then true
    else a[0] < b[0] || (a[0] == b[0] && Less(a[1..], b[1..]))
  }

  lemma {:induction false} LessIrreflexive(a: string)
    ensures !Less(a, a)
  {
    if a != "" { LessIrreflexive(a[1..]); }
  }

  predicate Sorted(entries: seq<Entry>) {
    forall i, j :: 0 <= i < j < |entries| ==> Less(entries[i].name, entries[j].name)
  }

  const WhiteoutPrefix := ".wh."

  predicate Whiteout(name: string) {
    WhiteoutPrefix <= name
  }

  /** Sorted at every level, and no name that extraction takes for a whiteout. */
  predicate Proper(entries: seq<Entry>)
    decreases entries
  {
    && Sorted(entries)
    && forall i :: 0 <= i < |entries| ==> !Whiteout(entries[i].name) && ProperNode(entries[i].node)
  }

  predicate ProperNode(node: Node)
    decreases node
  {
    node.Dir? ==> Proper(node.entries)
  }

  // ---- tar items ----

  datatype Leaf = Folder | Regular(content: string)

  datatype Item = Item(path: seq<string>, leaf: Leaf)

  function LeafOf(node: Node): Leaf {
    match node
    case File(c) => Regular(c)
    case Dir(_) => Folder
  }

  function Prefix(at: seq<string>, items: seq<Item>): seq<Item> {
    seq(|items|, i requires 0 <= i < |items| => Item(at + items[i].path, items[i].leaf))
  }

  /** Every entry, each directory before what it holds. */
  function Emit(entries: seq<Entry>): seq<Item>
    decreases entries
  {
    if entries == [] then []
    else
      var last := entries[|entries| - 1];
      Emit(entries[..|entries| - 1]) + [Item([last.name], LeafOf(last.node))]
        + Prefix([last.name], EmitNode(last.node))
  }

  function EmitNode(node: Node): seq<Item>
    decreases node
  {
    match node
    case File(_) => []
    case Dir(entries) => Emit(entries)
  }

  lemma EmitSnoc(entries: seq<Entry>, e: Entry)
    ensures Emit(entries + [e]) == Emit(entries)
        + ([Item([e.name], LeafOf(e.node))] + Prefix([e.name], EmitNode(e.node)))
  {
    hide Prefix;
    hide EmitNode;
    assert (entries + [e])[..|entries|] == entries;
    var before, one, below := Emit(entries), [Item([e.name], LeafOf(e.node))], Prefix([e.name], EmitNode(e.node));
    assert before + one + below == before + (one + below);
  }

  // ---- extraction ----

  /** How many leading entries are named before the given name. */
  function Position(entries: seq<Entry>, name: string): (k: nat)
    ensures k <= |entries|
  {
    if entries == [] || !Less(entries[0].name, name) then 0 else 1 + Position(entries[1..], name)
  }

  function NewNode(leaf: Leaf): Node {
    match leaf
    case Folder => Dir([])
    case Regular(c) => File(c)
  }

  /** Make the missing parents, then the directory or the file; fails where a file
      stands for a directory or a directory for a file. */
  function Put(entries: seq<Entry>, path: seq<string>, leaf: Leaf): Option<seq<Entry>>
    requires path != []
    decreases |path|
  {
    var name, k := path[0], Position(entries, path[0]);
    if k < |entries| && entries[k].name == name then
      var node := entries[k].node;
      if |path| > 1 then
        if node.File? then None
        else match Put(node.entries, path[1..], leaf)
          case None => None
          case Some(inner) => Some(entries[k := Entry(name, Dir(inner))])
      else match leaf
        case Folder => if node.Dir? then Some(entries) else None
        case Regular(c) => if node.File? then Some(entries[k := Entry(name, File(c))]) else None
    else if |path| > 1 then
      match Put([], path[1..], leaf)
      case None => None
      case Some(inner) => Some(entries[..k] + [Entry(name, Dir(inner))] + entries[k..])
    else Some(entries[..k] + [Entry(name, NewNode(leaf))] + entries[k..])
  }

  /** What stands at a path. */
  function NodeAt(entries: seq<Entry>, path: seq<string>): Option<Node>
    requires path != []
    decreases |path|
  {
    var k := Position(entries, path[0]);
    if k >= |entries| || entries[k].name != path[0] then None
    else if |path| == 1 then Some(entries[k].node)
    else match entries[k].node
      case File(_) => None
      case Dir(inner) => NodeAt(inner, path[1..])
  }

  /** A file stands on the way, or a file for a directory or a directory for a file. */
  ghost predicate Blocked(entries: seq<Entry>, path: seq<string>, leaf: Leaf)
    requires path != []
  {
    || (exists i :: 1 <= i < |path| && NodeAt(entries, path[..i]).Some? && NodeAt(entries, path[..i]).value.File?)
    || (NodeAt(entries, path).Some? && NodeAt(entries, path).value.Dir? != leaf.Folder?)
  }

  lemma {:induction false} PositionStays(entries: seq<Entry>, name: string, node: Node, rest: seq<Entry>)
    requires Position(entries, name) <= |entries|
    ensures Position(entries[..Position(entries, name)] + [Entry(name, node)] + rest, name) == Position(entries, name)
    decreases |entries|
  {
    LessIrreflexive(name);
    var k := Position(entries, name);
    var all := entries[..k] + [Entry(name, node)] + rest;
    if k > 0 {
      PositionStays(entries[1..], name, node, rest);
      assert all[1..] == entries[1..][..k - 1] + [Entry(name, node)] + rest;
    }
  }

  lemma BlockedFirst(entries: seq<Entry>, path: seq<string>, leaf: Leaf)
    requires |path| > 1
    ensures var k := Position(entries, path[0]);
            Blocked(entries, path, leaf) <==>
              && k < |entries| && entries[k].name == path[0]
              && (entries[k].node.File? || Blocked(entries[k].node.entries, path[1..], leaf))
  {
    var k := Position(entries, path[0]);
    assert path[..1][0] == path[0];
    forall i | 1 < i < |path| ensures path[..i][1..] == path[1..][..i - 1] && path[..i][0] == path[0] {
    }
    if k < |entries| && entries[k].name == path[0] && entries[k].node.Dir? {
      var inner := entries[k].node.entries;
      if Blocked(inner, path[1..], leaf) {
        var rest := path[1..];
        if i :| 1 <= i < |rest| && NodeAt(inner, rest[..i]).Some? && NodeAt(inner, rest[..i]).value.File? {
          assert path[..i + 1][1..] == path[1..][..i];
          assert NodeAt(entries, path[..i + 1]) == NodeAt(inner, path[1..][..i]);
        }
      }
      if i :| 1 <= i < |path| && NodeAt(entries, path[..i]).Some? && NodeAt(entries, path[..i]).value.File? {
        assert i > 1;
        assert NodeAt(entries, path[..i]) == NodeAt(inner, path[1..][..i - 1]);
      }
    }
  }

  lemma {:induction false} NothingBlocked(path: seq<string>, leaf: Leaf)
    requires path != []
    ensures !Blocked([], path, leaf)
  {
  }

  /** What an item comes to where it is put: a file with the new content, a directory as it
      was or empty. */
  ghost predicate Stands(entries: seq<Entry>, path: seq<string>, leaf: Leaf, put: seq<Entry>)
    requires path != []
  {
    NodeAt(put, path)
    == match leaf
       case Regular(c) => Some(File(c))
       case Folder => if NodeAt(entries, path).Some? then NodeAt(entries, path) else Some(Dir([]))
  }

  /** The entry of this name afterwards. */
  lemma PutAtPosition(entries: seq<Entry>, name: string, node: Node)
    ensures var k := Position(entries, name);
            var put := if k < |entries| && entries[k].name == name then entries[k := Entry(name, node)]
                       else entries[..k] + [Entry(name, node)] + entries[k..];
            Position(put, name) == k && k < |put| && put[k] == Entry(name, node)
  {
    var k := Position(entries, name);
    if k < |entries| && entries[k].name == name {
      PositionStays(entries, name, node, entries[k + 1..]);
      assert entries[k := Entry(name, node)] == entries[..k] + [Entry(name, node)] + entries[k + 1..];
    } else {
      PositionStays(entries, name, node, entries[k..]);
    }
  }

  lemma PutHere(entries: seq<Entry>, path: seq<string>, leaf: Leaf)
    requires |path| == 1
    ensures Put(entries, path, leaf).None? <==> Blocked(entries, path, leaf)
    ensures Put(entries, path, leaf).Some? ==> Stands(entries, path, leaf, Put(entries, path, leaf).value)
  {
    var name, k := path[0], Position(entries, path[0]);
    PutAtPosition(entries, name, NewNode(leaf));
    hide Position;
  }

  lemma PutBelow(entries: seq<Entry>, path: seq<string>, leaf: Leaf, inner: seq<Entry>)
    requires |path| > 1
    requires var k := Position(entries, path[0]);
             if k < |entries| && entries[k].name == path[0] then entries[k].node == Dir(inner) else inner == []
    requires Put(inner, path[1..], leaf).None? <==> Blocked(inner, path[1..], leaf)
    requires Put(inner, path[1..], leaf).Some? ==> Stands(inner, path[1..], leaf, Put(inner, path[1..], leaf).value)
    ensures Put(entries, path, leaf).None? <==> Blocked(entries, path, leaf)
    ensures Put(entries, path, leaf).Some? ==> Stands(entries, path, leaf, Put(entries, path, leaf).value)
  {
    var name, k := path[0], Position(entries, path[0]);
    BlockedFirst(entries, path, leaf);
    NothingBlocked(path[1..], leaf);
    var deeper := Put(inner, path[1..], leaf);
    if deeper.Some? {
      PutAtPosition(entries, name, Dir(deeper.value));
    }
    hide Blocked;
    hide Position;
    assert NodeAt([], path[1..]).None? by { NothingThere(path[1..]); }
  }

  lemma NothingThere(path: seq<string>)
    requires path != []
    ensures NodeAt([], path).None?
  {
  }

  /** Putting an item fails exactly where it is blocked, and otherwise it stands there. */
  lemma {:induction false} PutStands(entries: seq<Entry>, path: seq<string>, leaf: Leaf)
    requires path != []
    ensures Put(entries, path, leaf).None? <==> Blocked(entries, path, leaf)
    ensures Put(entries, path, leaf).Some? ==> Stands(entries, path, leaf, Put(entries, path, leaf).value)
    decreases |path|
  {
    if |path| == 1 {
      PutHere(entries, path, leaf);
    } else {
      BlockedFirst(entries, path, leaf);
      var k := Position(entries, path[0]);
      hide Blocked;
      if k < |entries| && entries[k].name == path[0] && entries[k].node.File? {
      } else {
        var inner := if k < |entries| && entries[k].name == path[0] then entries[k].node.entries else [];
        hide Stands;
        hide Put;
        PutStands(inner, path[1..], leaf);
        PutBelow(entries, path, leaf, inner);
      }
    }
  }

  predicate Skipped(item: Item) {
    item.path == [] || Whiteout(item.path[|item.path| - 1])
  }

  /** Item after item into a directory. */
  function Extracted(entries: seq<Entry>, items: seq<Item>): Option<seq<Entry>> {
    if items == [] then Some(entries)
    else
      var last := items[|items| - 1];
      match Extracted(entries, items[..|items| - 1])
      case None => None
      case Some(done) => if Skipped(last) then Some(done) else Put(done, last.path, last.leaf)
  }

  method Extract(items: seq<Item>) returns (ok: bool, tree: seq<Entry>)
    ensures Extracted([], items) == if ok then Some(tree) else None
  {
    tree := [];
    for n := 0 to |items|
      invariant Extracted([], items[..n]) == Some(tree)
    {
      assert items[..n + 1][..n] == items[..n];
      if Skipped(items[n]) {
        continue;
      }
      var next := Put(tree, items[n].path, items[n].leaf);
      if next.None? {
        StaysFailed([], items, n + 1);
        return false, tree;
      }
      tree := next.value;
    }
    assert items[..|items|] == items;
    return true, tree;
  }

  lemma {:induction false} StaysFailed(entries: seq<Entry>, items: seq<Item>, n: nat)
    requires n <= |items| && Extracted(entries, items[..n]).None?
    ensures Extracted(entries, items).None?
    decreases |items| - n
  {
    if n == |items| {
      assert items[..n] == items;
    } else {
      assert items[..n + 1][..n] == items[..n];
      StaysFailed(entries, items, n + 1);
    }
  }

  // ---- extraction undoes emission ----

  lemma {:induction false} ExtractedAppend(entries: seq<Entry>, a: seq<Item>, b: seq<Item>)
    requires Extracted(entries, a).Some?
    ensures Extracted(entries, a + b) == Extracted(Extracted(entries, a).value, b)
    decreases |b|
  {
    if b == [] {
      assert a + b == a;
    } else {
      var init := b[..|b| - 1];
      ExtractedAppend(entries, a, init);
      assert (a + b)[..|a + b| - 1] == a + init;
    }
  }

  /** All entries are named before the given name. */
  predicate AllBefore(entries: seq<Entry>, name: string) {
    forall i :: 0 <= i < |entries| ==> Less(entries[i].name, name)
  }

  lemma {:induction false} PositionAfterAll(entries: seq<Entry>, rest: seq<Entry>, name: string)
    requires AllBefore(entries, name) && (rest != [] ==> rest[0].name == name)
    ensures Position(entries + rest, name) == |entries|
    decreases |entries|
  {
    if entries == [] {
      assert entries + rest == rest;
      LessIrreflexive(name);
    } else {
      assert (entries + rest)[1..] == entries[1..] + rest;
      PositionAfterAll(entries[1..], rest, name);
    }
  }

  /** A name after all others becomes the last entry. */
  lemma PutLast(entries: seq<Entry>, name: string, leaf: Leaf)
    requires AllBefore(entries, name)
    ensures Put(entries, [name], leaf) == Some(entries + [Entry(name, NewNode(leaf))])
  {
    PositionAfterAll(entries, [], name);
    assert entries + [] == entries;
    assert entries[..|entries|] + [Entry(name, NewNode(leaf))] + entries[|entries|..]
      == entries + [Entry(name, NewNode(leaf))];
  }

  lemma PutUnderLast(entries: seq<Entry>, name: string, inner: seq<Entry>, path: seq<string>, leaf: Leaf)
    requires AllBefore(entries, name) && path != []
    ensures Put(entries + [Entry(name, Dir(inner))], [name] + path, leaf)
         == match Put(inner, path, leaf)
            case None => None
            case Some(made) => Some(entries + [Entry(name, Dir(made))])
  {
    var all := entries + [Entry(name, Dir(inner))];
    PositionAfterAll(entries, [Entry(name, Dir(inner))], name);
    assert ([name] + path)[1..] == path;
    forall made ensures all[|entries| := Entry(name, Dir(made))] == entries + [Entry(name, Dir(made))] {
    }
  }

  predicate NoneEmpty(items: seq<Item>) {
    forall i :: 0 <= i < |items| ==> items[i].path != []
  }

  lemma ExtractedSnoc(entries: seq<Entry>, items: seq<Item>, item: Item)
    ensures Extracted(entries, items + [item])
         == match Extracted(entries, items)
            case None => None
            case Some(done) => if Skipped(item) then Some(done) else Put(done, item.path, item.leaf)
  {
    hide Put;
    assert (items + [item])[..|items|] == items;
  }

  lemma PrefixSnoc(at: seq<string>, items: seq<Item>, item: Item)
    ensures Prefix(at, items + [item]) == Prefix(at, items) + [Item(at + item.path, item.leaf)]
  {
  }

  /** Items below the last directory only change that directory, as they would on
      their own. */
  lemma {:induction false} ExtractUnderLast(entries: seq<Entry>, name: string, inner: seq<Entry>, items: seq<Item>)
    requires AllBefore(entries, name) && NoneEmpty(items)
    ensures Extracted(entries + [Entry(name, Dir(inner))], Prefix([name], items))
         == match Extracted(inner, items)
            case None => None
            case Some(made) => Some(entries + [Entry(name, Dir(made))])
    decreases |items|
  {
    hide Put;
    hide AllBefore;
    if items != [] {
      hide Extracted;
      hide Prefix;
      var init, last := items[..|items| - 1], items[|items| - 1];
      assert items == init + [last];
      ExtractUnderLast(entries, name, inner, init);
      PrefixSnoc([name], init, last);
      ExtractedSnoc(entries + [Entry(name, Dir(inner))], Prefix([name], init), Item([name] + last.path, last.leaf));
      ExtractedSnoc(inner, init, last);
      match Extracted(inner, init) {
        case None =>
        case Some(done) => PutUnderLast(entries, name, done, last.path, last.leaf);
      }
    }
  }

  lemma {:induction false} EmitNoneEmpty(entries: seq<Entry>)
    ensures NoneEmpty(Emit(entries))
    decreases entries
  {
    if entries != [] {
      EmitNoneEmpty(entries[..|entries| - 1]);
    }
  }

  lemma ExtractOneItem(entries: seq<Entry>, name: string, leaf: Leaf)
    requires AllBefore(entries, name) && !Whiteout(name)
    ensures Extracted(entries, [Item([name], leaf)]) == Some(entries + [Entry(name, NewNode(leaf))])
  {
    var item := Item([name], leaf);
    assert [item][..0] == [];
    PutLast(entries, name, leaf);
  }

  /** Extracting what a tree emits rebuilds the tree, whatever its depth. */
  lemma {:induction false} ExtractEmitted(entries: seq<Entry>)
    requires Proper(entries)
    ensures Extracted([], Emit(entries)) == Some(entries)
    decreases entries
  {
    if entries != [] {
      var init, last := entries[..|entries| - 1], entries[|entries| - 1];
      ExtractEmitted(init);
      ExtractLastEntry(init, last, Emit(init));
      assert init + [last] == entries;
    }
  }

  lemma {:induction false} ExtractLastEntry(init: seq<Entry>, last: Entry, before: seq<Item>)
    requires Extracted([], before) == Some(init)
    requires AllBefore(init, last.name) && !Whiteout(last.name) && ProperNode(last.node)
    ensures Extracted([], before + [Item([last.name], LeafOf(last.node))] + Prefix([last.name], EmitNode(last.node)))
         == Some(init + [last])
    decreases last, 1
  {
    var one := [Item([last.name], LeafOf(last.node))];
    var below := Prefix([last.name], EmitNode(last.node));
    ExtractedAppend([], before, one);
    ExtractOneItem(init, last.name, LeafOf(last.node));
    ExtractedAppend([], before + one, below);
    match last.node {
      case File(c) =>
        assert below == [];
      case Dir(inner) =>
        ExtractEmitted(inner);
        EmitNoneEmpty(inner);
        ExtractUnderLast(init, last.name, [], Emit(inner));
    }
  }
}
