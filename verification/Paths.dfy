/** File names and the extensions that mark case and template files. */
module Paths {

  /** filepath.Ext: from the last dot of the last name on, or empty. */
  function Ext(path: string): string {
    if path == "" || path[|path| - 1] == '/' then ""
    else if path[|path| - 1] == '.' then "."
    else
      var e := Ext(path[..|path| - 1]);
      if e == "" then "" else e + [path[|path| - 1]]
  }

  /** The extension is the suffix from the last dot, if no separator follows it. */
  lemma {:induction false} ExtFromLastDot(stem: string, rest: string)
    requires '.' !in rest
    ensures Ext(stem + "." + rest) == if '/' in rest then "" else "." + rest
    decreases |rest|
  {
    hide Ext;
    if rest == "" {
      assert stem + "." + rest == stem + ".";
      ExtAtDot(stem);
    } else {
      var init, last := rest[..|rest| - 1], rest[|rest| - 1];
      assert rest == init + [last];
      ExtFromLastDot(stem, init);
      ExtOneMore(stem + "." + init, last);
      assert stem + "." + rest == stem + "." + init + [last];
      assert "." + rest == "." + init + [last];
    }
  }

  lemma ExtAtDot(stem: string)
    ensures Ext(stem + ".") == "."
  {
  }

  lemma ExtOneMore(path: string, c: char)
    requires c != '.'
    ensures Ext(path + [c]) == if c == '/' || Ext(path) == "" then "" else Ext(path) + [c]
  {
    assert (path + [c])[..|path|] == path;
  }

  predicate IsCaseFile(name: string) {
    Ext(name) == ".yaml"
  }

  function Lower(c: char): char {
    if 'A' <= c <= 'Z' then c - 'A' + 'a' else c
  }

  function ToLower(s: string): (r: string)
    ensures |r| == |s|
  {
    seq(|s|, i requires 0 <= i < |s| => Lower(s[i]))
  }

  /** isYAMLPath: either YAML extension, in any letter case. */
  predicate IsYaml(name: string) {
    ToLower(Ext(name)) == ".yaml" || ToLower(Ext(name)) == ".yml"
  }

  lemma CaseFilesAreYaml(name: string)
    requires IsCaseFile(name)
    ensures IsYaml(name)
  {
    assert ToLower(".yaml") == ".yaml";
  }

  /** strings.HasPrefix(name, ".") */
  predicate Hidden(name: string) {
    name != "" && name[0] == '.'
  }
}
