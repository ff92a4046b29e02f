/**
 The file overwrite.env: one rendered line per variable, collected from a map in whatever order the
 map yields, sorted, and written out.
 */
module EnvFile {
  import opened Entities

  // --- The order of lines: byte by byte. ---

  predicate AtMost(a: string, b: string) {
    a == [] || (b != [] && (a[0] < b[0] || (a[0] == b[0] && AtMost(a[1..], b[1..]))))
  }

  // What this order is: the first character that differs decides, and a beginning comes first.
  ghost predicate ComesFirst(a: string, b: string) {
    a <= b || exists i :: 0 <= i < |a| && i < |b| && a[..i] == b[..i] && a[i] < b[i]
  }

  lemma {:induction false} AtMostIsLexicographic(a: string, b: string)
    ensures AtMost(a, b) <==> ComesFirst(a, b)
  {
    if a != [] && b != [] {
      AtMostIsLexicographic(a[1..], b[1..]);
      assert a == [a[0]] + a[1..] && b == [b[0]] + b[1..];
      if a[0] == b[0] { HeadDoesNotMatter(a[0], a[1..], b[1..]); }
      if a[0] < b[0] { assert a[..0] == b[..0]; }
    }
  }

  lemma HeadDoesNotMatter(c: char, a: string, b: string)
    ensures ComesFirst([c] + a, [c] + b) <==> ComesFirst(a, b)
  {
    var x, y := [c] + a, [c] + b;
    if x <= y { assert x[1..] <= y[1..] && x[1..] == a && y[1..] == b; }
    forall i | 0 <= i < |a| && i < |b| ensures a[..i] == b[..i] <==> x[..i + 1] == y[..i + 1] {
      assert x[..i + 1] == [c] + a[..i] && y[..i + 1] == [c] + b[..i];
      assert x[..i + 1][1..] == a[..i] && y[..i + 1][1..] == b[..i];
    }
    forall i | 0 < i < |x| && i < |y| && x[..i] == y[..i] && x[i] < y[i] ensures ComesFirst(a, b) {
      assert a[..i - 1] == b[..i - 1] && a[i - 1] < b[i - 1];
    }
    forall i | 0 <= i < |a| && i < |b| && a[..i] == b[..i] && a[i] < b[i] ensures ComesFirst(x, y) {
      assert x[..i + 1] == y[..i + 1] && x[i + 1] < y[i + 1];
    }
  }

  lemma {:induction false} AtMostIsTotal(a: string, b: string)
    ensures AtMost(a, b) || AtMost(b, a)
  {
    if a != [] && b != [] { AtMostIsTotal(a[1..], b[1..]); }
  }

  lemma {:induction false} AtMostIsAntisymmetric(a: string, b: string)
    requires AtMost(a, b) && AtMost(b, a)
    ensures a == b
  {
    if a != [] && b != [] {
      AtMostIsAntisymmetric(a[1..], b[1..]);
      assert a == [a[0]] + a[1..] && b == [b[0]] + b[1..];
    }
  }

  lemma {:induction false} AtMostIsTransitive(a: string, b: string, c: string)
    requires AtMost(a, b) && AtMost(b, c)
    ensures AtMost(a, c)
  {
    if a != [] && a[0] == b[0] == c[0] { AtMostIsTransitive(a[1..], b[1..], c[1..]); }
  }

  predicate Sorted(s: seq<string>) {
    forall i, j :: 0 <= i <= j < |s| ==> AtMost(s[i], s[j])
  }

  // --- The file of a map. ---

  // How often a line comes: once for every variable that is rendered like that.  Keys that differ
  // only in case may collide.
  function Times(value: map<string, string>, render: (string, string) -> string, line: string): nat {
    |set k | k in value && render(k, value[k]) == line|
  }

  ghost predicate IsFileOf(lines: seq<string>, value: map<string, string>, render: (string, string) -> string) {
    Sorted(lines) && forall line :: multiset(lines)[line] == Times(value, render, line)
  }

  lemma FirstIsLeast(a: seq<string>, b: seq<string>)
    requires Sorted(a) && multiset(a) == multiset(b) && a != [] && b != []
    ensures AtMost(a[0], b[0])
  {
    assert b[0] in multiset(a);
    var i :| 0 <= i < |a| && a[i] == b[0];
    assert AtMost(a[0], a[i]);
  }

  lemma RestAgrees(a: seq<string>, b: seq<string>)
    requires multiset(a) == multiset(b) && a != [] && b != [] && a[0] == b[0]
    ensures multiset(a[1..]) == multiset(b[1..])
  {
    assert a == [a[0]] + a[1..] && b == [b[0]] + b[1..];
    assert multiset(a[1..]) == multiset(a) - multiset{a[0]};
  }

  lemma {:induction false} SortedIsUnique(a: seq<string>, b: seq<string>)
    requires Sorted(a) && Sorted(b) && multiset(a) == multiset(b)
    ensures a == b
  {
    assert |a| == |multiset(a)| == |multiset(b)| == |b|;
    if a != [] {
      FirstIsLeast(a, b);
      FirstIsLeast(b, a);
      AtMostIsAntisymmetric(a[0], b[0]);
      RestAgrees(a, b);
      SortedIsUnique(a[1..], b[1..]);
      assert a == [a[0]] + a[1..] && b == [b[0]] + b[1..];
    }
  }

  // The file depends on nothing but the map: not on the order in which the map is walked through,
  // even when lines collide.
  lemma FileIsCanonical(a: seq<string>, b: seq<string>, value: map<string, string>, render: (string, string) -> string)
    requires IsFileOf(a, value, render) && IsFileOf(b, value, render)
    ensures a == b
  {
    assert multiset(a) == multiset(b);
    SortedIsUnique(a, b);
  }

  method Sort(lines: seq<string>) returns (sorted: seq<string>)
    ensures Sorted(sorted) && multiset(sorted) == multiset(lines)
  {
    sorted := [];
    for i := 0 to |lines|
      invariant Sorted(sorted) && multiset(sorted) == multiset(lines[..i])
    {
      sorted := Insert(sorted, lines[i]);
      assert lines[..i + 1] == lines[..i] + [lines[i]];
    }
    assert lines[..|lines|] == lines;
  }

  method Insert(s: seq<string>, line: string) returns (r: seq<string>)
    requires Sorted(s)
    ensures Sorted(r) && multiset(r) == multiset(s) + multiset{line}
  {
    var i := 0;
    while i < |s| && AtMost(s[i], line)
      invariant i <= |s| && forall j :: 0 <= j < i ==> AtMost(s[j], line)
    {
      i := i + 1;
    }
    r := s[..i] + [line] + s[i..];
    assert s == s[..i] + s[i..];
    AtMostIsTotal(line, line);
    if i < |s| {
      AtMostIsTotal(s[i], line);
      forall j | i <= j < |s| ensures AtMost(line, s[j]) { AtMostIsTransitive(line, s[i], s[j]); }
    }
  }

  // The lines of the listed variables, one by one.
  function Rendered(order: seq<string>, value: map<string, string>, render: (string, string) -> string): seq<string>
    requires Elements(order) <= value.Keys
  {
    seq(|order|, i requires 0 <= i < |order| =>
      assert order[i] in Elements(order);
      render(order[i], value[order[i]]))
  }

  function Alike(keys: set<string>, value: map<string, string>, render: (string, string) -> string, line: string):
      set<string>
  {
    set k | k in keys && k in value && render(k, value[k]) == line
  }

  lemma OneMoreKey(order: seq<string>, k: string, value: map<string, string>, render: (string, string) -> string)
    requires Distinct(order) && Elements(order) <= value.Keys && k !in Elements(order) && k in value
    ensures Distinct(order + [k]) && Elements(order + [k]) == Elements(order) + {k}
    ensures Rendered(order + [k], value, render) == Rendered(order, value, render) + [render(k, value[k])]
  {
    forall x ensures x in Elements(order + [k]) <==> x in Elements(order) + {k} {
      assert x in order + [k] <==> x in order || x == k;
    }
  }

  lemma OneMoreAlike(keys: set<string>, k: string, value: map<string, string>, render: (string, string) -> string,
      line: string)
    requires k !in keys && k in value
    ensures |Alike(keys + {k}, value, render, line)|
         == |Alike(keys, value, render, line)| + if render(k, value[k]) == line then 1 else 0
  {
    if render(k, value[k]) == line {
      assert Alike(keys + {k}, value, render, line) == Alike(keys, value, render, line) + {k};
    } else {
      assert Alike(keys + {k}, value, render, line) == Alike(keys, value, render, line);
    }
  }

  // Every line comes once for every listed variable that is rendered like that.
  lemma {:induction false} RenderedAlike(
      order: seq<string>, value: map<string, string>, render: (string, string) -> string, line: string)
    requires Distinct(order) && Elements(order) <= value.Keys
    ensures multiset(Rendered(order, value, render))[line] == |Alike(Elements(order), value, render, line)|
  {
    if order == [] {
      assert Alike(Elements(order), value, render, line) == {};
    } else {
      var front, k := order[..|order| - 1], order[|order| - 1];
      assert order == front + [k];
      assert Elements(front) <= Elements(order) && k in Elements(order);
      RenderedAlike(front, value, render, line);
      OneMoreKey(front, k, value, render);
      OneMoreAlike(Elements(front), k, value, render, line);
    }
  }

  lemma RenderedIsFile(order: seq<string>, value: map<string, string>, render: (string, string) -> string,
      lines: seq<string>)
    requires Distinct(order) && Elements(order) == value.Keys
    requires Sorted(lines) && multiset(lines) == multiset(Rendered(order, value, render))
    ensures IsFileOf(lines, value, render)
  {
    forall line ensures multiset(lines)[line] == Times(value, render, line) {
      RenderedAlike(order, value, render, line);
      assert Alike(value.Keys, value, render, line) == set k | k in value && render(k, value[k]) == line;
    }
  }

  // The map yields its keys in any order, each once, and the file has one line for each.
  method RenderEnv(value: map<string, string>, render: (string, string) -> string)
    returns (lines: seq<string>, ghost order: seq<string>)
    ensures Distinct(order) && Elements(order) == value.Keys
    ensures Sorted(lines) && multiset(lines) == multiset(Rendered(order, value, render))
    ensures IsFileOf(lines, value, render)
  {
    var collected: seq<string> := [];
    var rest := value.Keys;
    order := [];
    while rest != {}
      invariant rest <= value.Keys
      invariant Distinct(order) && Elements(order) == value.Keys - rest
      invariant collected == Rendered(order, value, render)
      decreases |rest|
    {
      var k :| k in rest;
      OneMoreKey(order, k, value, render);
      collected, rest, order := collected + [render(k, value[k])], rest - {k}, order + [k];
    }
    lines := Sort(collected);
    RenderedIsFile(order, value, render, lines);
  }

  // --- Writing the file. ---

  function Written(lines: seq<string>): string {
    if lines == [] then "" else lines[0] + "\n" + Written(lines[1..])
  }

  // What gets through of line i when the write of it stops after so many bytes.
  function Part(line: string, bytes: nat): string {
    if bytes <= |line| then line[..bytes] else line + "\n"
  }

  // That is: the line with its end, cut off there.
  lemma PartIsBeginning(line: string, bytes: nat)
    ensures Part(line, bytes) <= line + "\n"
    ensures |Part(line, bytes)| == if bytes <= |line| then bytes else |line| + 1
  {
    if bytes > |line| { assert line + "\n" <= line + "\n"; }
  }

  // What ends up in the file; write errors go unnoticed.
  function Through(lines: seq<string>, bytes: nat -> nat): string {
    if lines == [] then ""
    else
      var n := |lines| - 1;
      Through(lines[..n], bytes) + Part(lines[n], bytes(n))
  }

  // No write stops short.
  predicate AllThrough(lines: seq<string>, bytes: nat -> nat) {
    forall i: nat :: i < |lines| ==> bytes(i) > |lines[i]|
  }

  lemma {:induction false} WrittenExtends(lines: seq<string>, line: string)
    ensures Written(lines + [line]) == Written(lines) + line + "\n"
  {
    if lines == [] {
      assert Written([line]) == line + "\n" + Written([]);
    } else {
      WrittenExtends(lines[1..], line);
      assert (lines + [line])[1..] == lines[1..] + [line];
    }
  }

  // The file is what was to be written exactly when no write stops short.
  lemma {:induction false} ThroughIsWritten(lines: seq<string>, bytes: nat -> nat)
    ensures |Through(lines, bytes)| <= |Written(lines)|
    ensures Through(lines, bytes) == Written(lines) <==> AllThrough(lines, bytes)
    ensures !AllThrough(lines, bytes) ==> |Through(lines, bytes)| < |Written(lines)|
  {
    if lines != [] {
      var n := |lines| - 1;
      ThroughIsWritten(lines[..n], bytes);
      WrittenExtends(lines[..n], lines[n]);
      assert lines == lines[..n] + [lines[n]];
      assert AllThrough(lines, bytes) <==> AllThrough(lines[..n], bytes) && bytes(n) > |lines[n]| by {
        assert forall i: nat :: i < n ==> lines[..n][i] == lines[i];
      }
    }
  }

  class EnvRelease {
    // overwrite.env, None when it is not there
    var file: Option<string>

    // `fetched` is what the lookup of the environment returns, None for an error.  A lookup that
    // finds nothing counts as success, and writes nothing.
    method Configure(fetched: Option<seq<map<string, string>>>, render: (string, string) -> string,
                     openFails: bool, bytes: nat -> nat)
      returns (ok: bool)
      modifies this
      ensures ok <==> fetched.Some? && (fetched.value == [] || !openFails)
      ensures !ok || fetched.value == [] ==> file == old(file)
      // the file is the one of the environment exactly when no write stops short
      ensures ok && fetched.value != [] ==>
                exists lines ::
                  && IsFileOf(lines, fetched.value[0], render)
                  && file == Some(Through(lines, bytes))
                  && (file.value == Written(lines) <==> AllThrough(lines, bytes))
    {
      if fetched == None { return false; }
      if fetched.value == [] { return true; }
      var lines, _ := RenderEnv(fetched.value[0], render);
      if openFails { return false; }
      file := Some("");
      for i := 0 to |lines|
        invariant file == Some(Through(lines[..i], bytes))
      {
        assert lines[..i + 1][..i] == lines[..i];
        file := Some(file.value + Part(lines[i], bytes(i)));
      }
      assert lines[..|lines|] == lines;
      ThroughIsWritten(lines, bytes);
      return true;
    }
  }

  // --- Reading back. ---

  // Splits at line ends; `partial` is the line read so far.
  function ReadBack(text: string, partial: string): seq<string> {
    if text == "" then []
    else if text[0] == '\n' then [partial] + ReadBack(text[1..], "")
    else ReadBack(text[1..], partial + [text[0]])
  }

  lemma {:induction false} ReadsOneLine(line: string, rest: string, partial: string)
    requires '\n' !in line
    ensures ReadBack(line + "\n" + rest, partial) == [partial + line] + ReadBack(rest, "")
  {
    if line == "" {
      assert line + "\n" + rest == ['\n'] + rest && partial + line == partial;
    } else {
      assert (line + "\n" + rest)[1..] == line[1..] + "\n" + rest;
      ReadsOneLine(line[1..], rest, partial + [line[0]]);
      assert partial + [line[0]] + line[1..] == partial + line;
    }
  }

  lemma {:induction false} ReadLinesHaveNoLineEnd(text: string, partial: string)
    requires '\n' !in partial
    ensures forall i :: 0 <= i < |ReadBack(text, partial)| ==> '\n' !in ReadBack(text, partial)[i]
  {
    if text != "" {
      if text[0] == '\n' { ReadLinesHaveNoLineEnd(text[1..], ""); }
      else { ReadLinesHaveNoLineEnd(text[1..], partial + [text[0]]); }
    }
  }

  lemma {:induction false} WrittenLinesAreRead(lines: seq<string>)
    requires forall i :: 0 <= i < |lines| ==> '\n' !in lines[i]
    ensures ReadBack(Written(lines), "") == lines
  {
    if lines != [] {
      ReadsOneLine(lines[0], Written(lines[1..]), "");
      WrittenLinesAreRead(lines[1..]);
      assert "" + lines[0] == lines[0];
    }
  }

  // The file can be read back line by line exactly when no rendered line contains a line end.
  lemma {:induction false} RoundTrip(lines: seq<string>)
    ensures ReadBack(Written(lines), "") == lines <==> forall i :: 0 <= i < |lines| ==> '\n' !in lines[i]
  {
    ReadLinesHaveNoLineEnd(Written(lines), "");
    if forall i :: 0 <= i < |lines| ==> '\n' !in lines[i] { WrittenLinesAreRead(lines); }
  }
}
