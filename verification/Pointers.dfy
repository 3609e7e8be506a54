/** JSON pointers as printed in validation problems, against sections 3 and 4 of
RFC 6901. */
module Pointers {

  import opened Objects

  const RootPointer := "/"

  // ---- printing ----

  function EscapedChar(c: char): string {
    if c == '~' then "~0" else if c == '/' then "~1" else [c]
  }

  function Escaped(token: string): string {
    if token == "" then "" else EscapedChar(token[0]) + Escaped(token[1..])
  }

  function Spelled(location: seq<string>): string {
    if location == [] then "" else "/" + Escaped(location[0]) + Spelled(location[1..])
  }

  /** The printed pointer; the whole document prints as "/". */
  function Pointer(location: seq<string>): string {
    if location == [] then RootPointer else Spelled(location)
  }

  method Print(location: seq<string>) returns (printed: string)
    ensures printed == Pointer(location)
  {
    if |location| == 0 {
      return RootPointer;
    }
    printed := "";
    assert location[0..] == location;
    hide Escaped;
    for n := 0 to |location|
      invariant Spelled(location) == printed + Spelled(location[n..])
    {
      SpelledAt(location, n, printed);
      printed := printed + "/" + Escaped(location[n]);
    }
  }

  lemma SpelledAt(location: seq<string>, n: nat, printed: string)
    requires n < |location|
    ensures printed + Spelled(location[n..]) == printed + "/" + Escaped(location[n]) + Spelled(location[n + 1..])
  {
    hide Escaped;
    assert location[n..][1..] == location[n + 1..] && location[n..][0] == location[n];
    var token, rest := Escaped(location[n]), Spelled(location[n + 1..]);
    assert printed + ("/" + token + rest) == printed + "/" + token + rest;
  }

  // ---- reading, as the RFC prescribes ----

  /** Replace every occurrence of '~' followed by the digit. */
  function Unescaped(s: string, digit: char, c: char): string {
    if s == "" then ""
    else if |s| >= 2 && s[0] == '~' && s[1] == digit then [c] + Unescaped(s[2..], digit, c)
    else [s[0]] + Unescaped(s[1..], digit, c)
  }

  /** First every ~1, then every ~0. */
  function Token(s: string): string {
    Unescaped(Unescaped(s, '1', '/'), '0', '~')
  }

  function Split(s: string): (parts: seq<string>)
    ensures parts != []
  {
    if s == "" then [""]
    else
      var rest := Split(s[1..]);
      if s[0] == '/' then [""] + rest else [[s[0]] + rest[0]] + rest[1..]
  }

  function Tokens(parts: seq<string>): seq<string> {
    seq(|parts|, i requires 0 <= i < |parts| => Token(parts[i]))
  }

  /** The empty pointer is the whole document; any other begins with '/'. */
  function Read(pointer: string): Option<seq<string>> {
    if pointer == "" then Some([])
    else if pointer[0] != '/' then None
    else Some(Tokens(Split(pointer[1..])))
  }

  // ---- reading undoes printing ----

  /** Escaped, with the slashes already put back. */
  function Tilded(token: string): string {
    if token == "" then "" else (if token[0] == '~' then "~0" else [token[0]]) + Tilded(token[1..])
  }

  lemma {:induction false} SlashesBack(token: string)
    ensures Unescaped(Escaped(token), '1', '/') == Tilded(token)
  {
    if token != "" {
      var rest := token[1..];
      SlashesBack(rest);
      var e := Escaped(token);
      if token[0] == '/' {
        assert e[2..] == Escaped(rest);
      } else if token[0] == '~' {
        assert e[1..][1..] == Escaped(rest) && e[1..][0] == '0';
        assert Unescaped(e[1..], '1', '/') == ['0'] + Unescaped(Escaped(rest), '1', '/');
      } else {
        assert e[1..] == Escaped(rest);
      }
    }
  }

  lemma {:induction false} TildesBack(token: string)
    ensures Unescaped(Tilded(token), '0', '~') == token
  {
    if token != "" {
      var rest := token[1..];
      TildesBack(rest);
      var t := Tilded(token);
      if token[0] == '~' {
        assert t[2..] == Tilded(rest);
      } else {
        assert t[1..] == Tilded(rest);
      }
    }
  }

  lemma TokenBack(token: string)
    ensures Token(Escaped(token)) == token
  {
    SlashesBack(token);
    TildesBack(token);
  }

  lemma {:induction false} EscapedHasNoSlash(token: string)
    ensures '/' !in Escaped(token)
  {
    if token != "" {
      EscapedHasNoSlash(token[1..]);
    }
  }

  lemma {:induction false} SplitPlain(s: string)
    requires '/' !in s
    ensures Split(s) == [s]
  {
    if s != "" {
      SplitPlain(s[1..]);
      assert [s[0]] + s[1..] == s;
    }
  }

  lemma {:induction false} SplitAtSlash(s: string, rest: string)
    requires '/' !in s
    ensures Split(s + "/" + rest) == [s] + Split(rest)
    decreases |s|
  {
    var all := s + "/" + rest;
    if s == "" {
      assert all[1..] == rest;
    } else {
      assert all[1..] == s[1..] + "/" + rest;
      SplitAtSlash(s[1..], rest);
      assert ([s[1..]] + Split(rest))[1..] == Split(rest);
      assert [s[0]] + s[1..] == s;
    }
  }

  lemma SpelledFirst(location: seq<string>)
    requires location != []
    ensures Spelled(location) != "" && Spelled(location)[0] == '/'
    ensures Spelled(location)[1..] == Escaped(location[0]) + Spelled(location[1..])
  {
    hide Escaped;
    DropSlash(Escaped(location[0]), Spelled(location[1..]));
  }

  lemma DropSlash(token: string, rest: string)
    ensures ("/" + token + rest)[0] == '/' && ("/" + token + rest)[1..] == token + rest
  {
  }

  lemma TokensCons(part: string, parts: seq<string>)
    ensures Tokens([part] + parts) == [Token(part)] + Tokens(parts)
  {
    hide Token;
  }

  lemma {:induction false} SplitSpelled(location: seq<string>)
    requires location != []
    ensures Tokens(Split(Spelled(location)[1..])) == location
    decreases |location|
  {
    hide Token;
    hide Tokens;
    hide Escaped;
    hide Split;
    hide Spelled;
    var token, rest := location[0], location[1..];
    var first := Escaped(token);
    SpelledFirst(location);
    EscapedHasNoSlash(token);
    TokenBack(token);
    TokensCons(first, []);
    NoTokens();
    if rest == [] {
      assert first + Spelled(rest) == first;
      SplitPlain(first);
      assert [first] + [] == [first] && location == [token] + [];
    } else {
      SplitSpelled(rest);
      SpelledFirst(rest);
      var tail := Spelled(rest)[1..];
      assert first + Spelled(rest) == first + "/" + tail;
      SplitAtSlash(first, tail);
      TokensCons(first, Split(tail));
      assert location == [token] + rest;
    }
  }

  lemma NoTokens()
    ensures Spelled([]) == "" && Tokens([]) == []
  {
  }

  /** Every non-empty location is read back from its printed pointer. */
  lemma PointerRoundTrip(location: seq<string>)
    requires location != []
    ensures Read(Pointer(location)) == Some(location)
  {
    SpelledFirst(location);
    SplitSpelled(location);
  }

  /** Two locations print alike only if they are equal, or are the whole document
      and the member with the empty name. */
  lemma PointerInjective(a: seq<string>, b: seq<string>)
    ensures Pointer(a) == Pointer(b) <==> a == b || {a, b} == {[], [""]}
  {
    assert Pointer([""]) == RootPointer by {
      assert [""][1..] == [];
    }
    if a != [] { PointerRoundTrip(a); }
    if b != [] { PointerRoundTrip(b); }
    PointerRoundTrip([""]);
    hide Read;
    hide Spelled;
    if Pointer(a) == Pointer(b) && a == [] && b != [] {
      assert b == [""];
    } else if Pointer(a) == Pointer(b) && b == [] && a != [] {
      assert a == [""];
    }
    if {a, b} == {[], [""]} {
      assert a in {[], [""]} && b in {[], [""]};
    }
  }

  /** Putting back ~0 first would read a different location. */
  lemma OrderOfUnescapingMatters()
    ensures Unescaped(Unescaped(Escaped("~1"), '0', '~'), '1', '/') == "/" != "~1"
  {
    assert Escaped("~1") == "~01" by {
      assert "~1"[1..] == "1" && "1"[1..] == "";
      assert Escaped("1") == "1";
    }
    assert "~01"[2..] == "1" && "1"[1..] == "" && "~1"[2..] == "";
    assert Unescaped("1", '0', '~') == "1";
    assert Unescaped("~01", '0', '~') == "~1";
  }
}
