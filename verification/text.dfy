/** Manifest text handling shared by both versions: the whitespace cleanup
    applied to every manifest line, header detection, and the two suffix
    extractions (file name after the last ':' and part link from the last '/'). */
module Text {
  import opened Common

  /** The characters matched by `\s` in java.util.regex (no Unicode flag):
      space, tab, newline, vertical tab, form feed and carriage return. */
  predicate IsSpace(c: char) {
    c == ' ' || c == '\t' || c == '\n' || c == '\U{B}' || c == '\U{C}' || c == '\r'
  }

  predicate SpaceFree(s: string) {
    forall i :: 0 <= i < |s| ==> !IsSpace(s[i])
  }

  /** `line.replaceAll("\\s", "")`: every whitespace character removed. */
  function Strip(s: string): (r: string)
    ensures SpaceFree(r)
    ensures |r| <= |s|
    ensures |r| == |s| <==> SpaceFree(s)
    ensures forall c :: c in s && !IsSpace(c) ==> c in r
    ensures forall c :: c in r ==> c in s
  {
    if s == [] then []
    else if IsSpace(s[0]) then Strip(s[1..])
    else [s[0]] + Strip(s[1..])
  }

  /** Stripping works character by character: it distributes over concatenation. */
  lemma {:induction false} StripAppend(a: string, b: string)
    ensures Strip(a + b) == Strip(a) + Strip(b)
  {
    if a == [] {
      assert a + b == b;
    } else {
      assert (a + b)[0] == a[0];
      assert (a + b)[1..] == a[1..] + b;
      StripAppend(a[1..], b);
    }
  }

  /** A line without whitespace is left exactly as it is. */
  lemma {:induction false} StripSpaceFree(s: string)
    requires SpaceFree(s)
    ensures Strip(s) == s
  {
    if s != [] {
      assert SpaceFree(s[1..]);
      StripSpaceFree(s[1..]);
    }
  }

  /** Cleaning twice is cleaning once. */
  lemma StripIdempotent(s: string)
    ensures Strip(Strip(s)) == Strip(s)
  {
    StripSpaceFree(Strip(s));
  }

  /** The manifest lines in file order, each with its whitespace removed
      (the read loop of readTextFile). */
  function CleanLines(raw: seq<string>): (r: seq<string>)
    ensures |r| == |raw|
    ensures forall i :: 0 <= i < |raw| ==> r[i] == Strip(raw[i])
  {
    if raw == [] then []
    else CleanLines(raw[..|raw| - 1]) + [Strip(raw[|raw| - 1])]
  }

  /** `p` occurs in `s` starting at index `i`. */
  predicate OccursAt(s: string, p: string, i: int) {
    0 <= i && i + |p| <= |s| && s[i..i + |p|] == p
  }

  /** Java's `s.contains(p)`: `p` occurs somewhere in `s`. */
  predicate Contains(s: string, p: string) {
    exists i | 0 <= i <= |s| :: OccursAt(s, p, i)
  }

  /** An occurrence after the first character is an occurrence in the tail. */
  lemma OccursShift(s: string, p: string)
    requires s != []
    ensures forall j :: 1 <= j <= |s| ==> (OccursAt(s, p, j) <==> OccursAt(s[1..], p, j - 1))
  {
    forall j | 1 <= j <= |s|
      ensures OccursAt(s, p, j) <==> OccursAt(s[1..], p, j - 1)
    {
      if j + |p| <= |s| {
        assert s[1..][j - 1..j - 1 + |p|] == s[j..j + |p|];
      }
    }
  }

  /** Java's `s.indexOf(p)`, by scanning the start positions left to right:
      the first position where `p` occurs, or -1. `contains` is `indexOf(p) >= 0`. */
  function IndexOf(s: string, p: string): (r: int)
    ensures -1 <= r <= |s|
    ensures r == -1 <==> !Contains(s, p)
    ensures r >= 0 ==> OccursAt(s, p, r)
    ensures forall j :: 0 <= j < r ==> !OccursAt(s, p, j)
    decreases |s|
  {
    if |s| < |p| then -1
    else if s[..|p|] == p then
      assert OccursAt(s, p, 0);
      0
    else
      var r := IndexOf(s[1..], p);
      OccursShift(s, p);
      assert !OccursAt(s, p, 0);
      if r < 0 then -1
      else
        assert OccursAt(s, p, r + 1);
        r + 1
  }

  /** The marker of a line that starts a new logical file. */
  const HeaderTag: string := "Fichero:"

  /** `line.contains("Fichero:")`, which Java computes as `indexOf(...) >= 0`. */
  predicate IsHeader(line: string) {
    IndexOf(line, HeaderTag) >= 0
  }

  /** Header detection is a substring test: the tag marks a header wherever
      it stands in the line, not only at its start. */
  lemma HeaderAnywhere(u: string, v: string)
    ensures IsHeader(u + HeaderTag + v)
  {
    var s := u + HeaderTag + v;
    assert s[|u|..|u| + |HeaderTag|] == HeaderTag;
    assert OccursAt(s, HeaderTag, |u|);
  }

  /** Java's `s.lastIndexOf(c)`: the position of the last `c`, or -1. */
  function LastIndexOf(s: string, c: char): (r: int)
    ensures -1 <= r < |s|
    ensures r == -1 <==> c !in s
    ensures r >= 0 ==> s[r] == c && c !in s[r + 1..]
  {
    if s == [] then -1
    else if s[|s| - 1] == c then |s| - 1
    else
      assert s == s[..|s| - 1] + [s[|s| - 1]];
      LastIndexOf(s[..|s| - 1], c)
  }

  /** `line.substring(line.lastIndexOf(":") + 1)`: the file name of a header line. */
  function NameAfterColon(line: string): (r: string)
    ensures |r| <= |line| && line[|line| - |r|..] == r
    ensures |r| < |line| ==> line[|line| - |r| - 1] == ':'
  {
    line[LastIndexOf(line, ':') + 1..]
  }

  /** The name runs from just after the last ':', so it has none. */
  lemma NameHasNoColon(line: string)
    ensures ':' !in NameAfterColon(line)
  {
    var k := LastIndexOf(line, ':');
    assert NameAfterColon(line) == line[k + 1..];
  }

  /** A line without ':' is its own name. */
  lemma NameWithoutColon(line: string)
    requires ':' !in line
    ensures NameAfterColon(line) == line
  {
  }

  /** The name of a header is whatever follows its last ':'. */
  lemma NameOfHeader(prefix: string, name: string)
    requires ':' !in name
    ensures NameAfterColon(prefix + ":" + name) == name
  {
    var line := prefix + ":" + name;
    assert line[|prefix|] == ':';
    assert line[|prefix| + 1..] == name;
  }

  /** `line.substring(line.lastIndexOf("/"))`: the part's link, from its last
      '/' inclusive. With no '/' the begin index is -1 and Java throws. */
  function Link(line: string): (r: Result<string>)
    ensures r.Err? <==> '/' !in line
    ensures r.Err? ==> r.fault == StringIndexOutOfBounds
    ensures r.Ok? ==> 1 <= |r.value| <= |line| && line[|line| - |r.value|..] == r.value
    ensures r.Ok? ==> r.value[0] == '/' && '/' !in r.value[1..]
  {
    var k := LastIndexOf(line, '/');
    if k < 0 then Err(StringIndexOutOfBounds) else Ok(line[k..])
  }

  /** The link of a locator is its last path segment with its leading '/'. */
  lemma LinkOfLocator(base: string, segment: string)
    requires '/' !in segment
    ensures Link(base + "/" + segment) == Ok("/" + segment)
  {
    var line := base + "/" + segment;
    assert line[|base|] == '/';
    assert line[|base|..] == "/" + segment;
  }
}
