/** The SHA256SUMS file of a release: its text, and the parser that reads it back. */
module ReleaseSums {
  import opened Options

  const SUMS := "SHA256SUMS"
  const PACKAGED: seq<string> := ["bin/light-streamctl", "bin/light-streamd", "release.json"]
  const FILES: seq<string> := PACKAGED + [SUMS]

  // ---- Python's str.splitlines and str.partition -------------------------------------------

  predicate IsBreak(c: char)
  {
    c in {'\n', '\r', '\U{b}', '\U{c}', '\U{1c}', '\U{1d}', '\U{1e}', '\U{85}', '\U{2028}', '\U{2029}'}
  }

  function LineEnd(text: string): (n: nat)
    ensures n <= |text| && (forall i :: 0 <= i < n ==> !IsBreak(text[i])) && (n < |text| ==> IsBreak(text[n]))
  {
    if text == "" || IsBreak(text[0]) then 0 else 1 + LineEnd(text[1..])
  }

  /** The lines without their ends; "\r\n" is one end, and a final end starts no line. */
  function SplitLines(text: string): seq<string>
    decreases |text|
  {
    if text == "" then []
    else
      var n := LineEnd(text);
      if n == |text| then [text]
      else [text[..n]] + SplitLines(text[n + if text[n..n + 1] == "\r" && text[n + 1..] != "" && text[n + 1] == '\n' then 2 else 1..])
  }

  predicate DoubleSpace(line: string, i: nat) { i + 1 < |line| && line[i] == ' ' && line[i + 1] == ' ' }

  /** The position of the first double space, or the length. */
  function Separator(line: string): (n: nat)
    ensures n <= |line| && (n < |line| ==> DoubleSpace(line, n))
    ensures forall i :: 0 <= i < n ==> !DoubleSpace(line, i)
  {
    if line == "" || DoubleSpace(line, 0) then 0
    else
      var n := Separator(line[1..]);
      assert forall i :: 0 < i < |line| ==> DoubleSpace(line, i) == DoubleSpace(line[1..], i - 1);
      1 + n
  }

  // ---- parse_sums --------------------------------------------------------------------------

  datatype Entry = Entry(name: string, digest: string)

  /** One line, if it is valid. */
  function ParseLine(line: string): Option<Entry>
  {
    var n := Separator(line);
    if n == |line| || n != 64 || line[n + 2..] !in FILES then None else Some(Entry(line[n + 2..], line[..n]))
  }

  function ParseLines(lines: seq<string>): Option<map<string, string>>
  {
    if lines == [] then Some(map[])
    else match (ParseLines(lines[..|lines| - 1]), ParseLine(lines[|lines| - 1]))
      case (Some(m), Some(e)) => Some(m[e.name := e.digest])
      case _ => None
  }

  function Inventory(): set<string> { (set name | name in FILES) - {SUMS} }

  /** What parse_sums returns; None where it raises. */
  function Parsed(text: string): Option<map<string, string>>
  {
    var m := ParseLines(SplitLines(text));
    if m.Some? && m.value.Keys == Inventory() then m else None
  }

  method ParseSums(text: string) returns (result: Option<map<string, string>>)
    ensures result == Parsed(text)
  {
    hide ParseLine, SplitLines;
    var lines := SplitLines(text);
    var sums: map<string, string> := map[];
    for i := 0 to |lines|
      invariant ParseLines(lines[..i]) == Some(sums)
    {
      assert lines[..i + 1][..i] == lines[..i];
      var entry := ParseLine(lines[i]);
      if entry.None? {
        NoRecovery(lines, i + 1);
        return None;
      }
      sums := sums[entry.value.name := entry.value.digest];
    }
    assert lines[..|lines|] == lines;
    result := if sums.Keys == Inventory() then Some(sums) else None;
  }

  lemma {:induction false} NoRecovery(lines: seq<string>, k: nat)
    requires k <= |lines| && ParseLines(lines[..k]) == None
    ensures ParseLines(lines) == None
    decreases |lines|
  {
    hide ParseLine;
    if k == |lines| {
      assert lines[..k] == lines;
    } else {
      var front := lines[..|lines| - 1];
      assert front[..k] == lines[..k];
      NoRecovery(front, k);
    }
  }

  /** In an accepted file every line is 64 characters, two spaces and the name of a packaged file. */
  lemma {:induction false} EveryLineValid(lines: seq<string>, i: nat)
    requires ParseLines(lines).Some? && i < |lines|
    ensures ParseLine(lines[i]).Some? && |ParseLine(lines[i]).value.digest| == 64
    ensures lines[i] == ParseLine(lines[i]).value.digest + "  " + ParseLine(lines[i]).value.name
    ensures ParseLine(lines[i]).value.name in ParseLines(lines).value
  {
    var n := |lines| - 1;
    if i < n {
      EveryLineValid(lines[..n], i);
    } else {
      var line := lines[n];
      assert line == line[..64] + "  " + line[66..];
    }
  }

  /** The digest of a name is the one on the last line with that name. */
  lemma {:induction false} LastLineCounts(lines: seq<string>, name: string) returns (i: nat)
    requires ParseLines(lines).Some? && name in ParseLines(lines).value
    ensures i < |lines| && ParseLine(lines[i]) == Some(Entry(name, ParseLines(lines).value[name]))
    ensures forall j :: i < j < |lines| ==> ParseLine(lines[j]).Some? && ParseLine(lines[j]).value.name != name
  {
    hide ParseLine;
    var n := |lines| - 1;
    var front, last := lines[..n], ParseLine(lines[n]).value;
    if last.name == name {
      i := n;
    } else {
      i := LastLineCounts(front, name);
      assert forall j :: i < j < n ==> lines[j] == front[j];
      assert lines[i] == front[i];
    }
  }

  /** Anything parse_sums accepts has exactly the packaged inventory. */
  lemma AcceptedInventory(text: string)
    requires Parsed(text).Some?
    ensures Parsed(text).value.Keys == {"bin/light-streamctl", "bin/light-streamd", "release.json"}
    ensures forall name :: name in Parsed(text).value ==> |Parsed(text).value[name]| == 64
  {
    hide SplitLines, ParseLine;
    forall name | name in PACKAGED
      ensures name in Parsed(text).value && |Parsed(text).value[name]| == 64
    {
      assert name != SUMS;
      var i := LastLineCounts(SplitLines(text), name);
      EveryLineValid(SplitLines(text), i);
    }
  }

  // ---- The text ----------------------------------------------------------------------------

  predicate IsHex(c: char) { '0' <= c <= '9' || 'a' <= c <= 'f' || 'A' <= c <= 'F' }

  predicate IsDigest(digest: string)
  {
    |digest| == 64 && forall i :: 0 <= i < 64 ==> IsHex(digest[i])
  }

  function Line(digest: string, name: string): string { digest + "  " + name }

  /** One line a packaged file, in sorted order. */
  function Text(names: seq<string>, digests: map<string, string>): string
    requires forall i :: 0 <= i < |names| ==> names[i] in digests
  {
    if names == [] then "" else Line(digests[names[0]], names[0]) + "\n" + Text(names[1..], digests)
  }

  function Lines(names: seq<string>, digests: map<string, string>): (lines: seq<string>)
    requires forall i :: 0 <= i < |names| ==> names[i] in digests
    ensures |lines| == |names|
  {
    seq(|names|, i requires 0 <= i < |names| => Line(digests[names[i]], names[i]))
  }

  predicate NoBreaks(text: string) { forall i :: 0 <= i < |text| ==> !IsBreak(text[i]) }

  lemma {:induction false} LineEndAt(line: string, rest: string)
    requires NoBreaks(line)
    ensures LineEnd(line + "\n" + rest) == |line|
  {
    var text := line + "\n" + rest;
    if line != "" {
      assert text[1..] == line[1..] + "\n" + rest;
      LineEndAt(line[1..], rest);
    }
  }

  lemma SplitsLine(line: string, rest: string)
    requires NoBreaks(line)
    ensures SplitLines(line + "\n" + rest) == [line] + SplitLines(rest)
  {
    var text := line + "\n" + rest;
    LineEndAt(line, rest);
    assert text[..|line|] == line && text[|line|..|line| + 1] == "\n" && text[|line| + 1..] == rest;
  }

  lemma NameIsPlain(name: string)
    requires name in PACKAGED
    ensures NoBreaks(name)
  {
  }

  lemma DigestIsPlain(digest: string)
    requires IsDigest(digest)
    ensures NoBreaks(digest) && forall i :: 0 <= i < |digest| ==> digest[i] != ' '
  {
  }

  lemma LineRoundTrip(digest: string, name: string)
    requires IsDigest(digest) && name in PACKAGED
    ensures NoBreaks(Line(digest, name)) && ParseLine(Line(digest, name)) == Some(Entry(name, digest))
  {
    hide IsDigest;
    DigestIsPlain(digest);
    NameIsPlain(name);
    var line := Line(digest, name);
    assert |digest| == 64 by { DigestLength(digest); }
    assert line[64] == ' ' && line[65] == ' ';
    assert DoubleSpace(line, 64);
    assert forall i :: 0 <= i < 64 ==> line[i] == digest[i];
    assert forall i :: 0 <= i < 64 ==> !DoubleSpace(line, i);
    assert line[66..] == name && line[..64] == digest;
  }

  lemma DigestLength(digest: string)
    requires IsDigest(digest)
    ensures |digest| == 64
  {
  }

  lemma {:induction false} TextSplits(names: seq<string>, digests: map<string, string>)
    requires forall i :: 0 <= i < |names| ==> names[i] in PACKAGED && names[i] in digests && IsDigest(digests[names[i]])
    ensures SplitLines(Text(names, digests)) == Lines(names, digests)
  {
    hide ParseLine, IsDigest;
    if names != [] {
      var line := Line(digests[names[0]], names[0]);
      LineRoundTrip(digests[names[0]], names[0]);
      TextSplits(names[1..], digests);
      SplitsLine(line, Text(names[1..], digests));
      assert Lines(names, digests) == [line] + Lines(names[1..], digests);
    }
  }

  /** Parsing the generated text gives back exactly the digests it was generated from. */
  lemma SumsRoundTrip(digests: map<string, string>)
    requires digests.Keys == (set name | name in PACKAGED) && forall name :: name in digests ==> IsDigest(digests[name])
    ensures forall i :: 0 <= i < |PACKAGED| ==> PACKAGED[i] in digests
    ensures Parsed(Text(PACKAGED, digests)) == Some(digests)
  {
    hide ParseLine, IsDigest, SplitLines, Text;
    assert forall i :: 0 <= i < |PACKAGED| ==> PACKAGED[i] in digests;
    TextSplits(PACKAGED, digests);
    var lines := Lines(PACKAGED, digests);
    var a, b, c := PACKAGED[0], PACKAGED[1], PACKAGED[2];
    LineRoundTrip(digests[a], a);
    LineRoundTrip(digests[b], b);
    LineRoundTrip(digests[c], c);
    assert lines == [Line(digests[a], a), Line(digests[b], b), Line(digests[c], c)];
    ThreeLines(lines, Entry(a, digests[a]), Entry(b, digests[b]), Entry(c, digests[c]));
    MapOfThree(digests, a, b, c);
  }

  lemma MapOfThree(digests: map<string, string>, a: string, b: string, c: string)
    requires digests.Keys == (set name | name in PACKAGED) && a == PACKAGED[0] && b == PACKAGED[1] && c == PACKAGED[2]
    ensures map[a := digests[a]][b := digests[b]][c := digests[c]] == digests
    ensures Inventory() == digests.Keys
  {
    var m := map[a := digests[a]][b := digests[b]][c := digests[c]];
    assert m.Keys == digests.Keys;
  }

  lemma ThreeLines(lines: seq<string>, x: Entry, y: Entry, z: Entry)
    requires |lines| == 3 && ParseLine(lines[0]) == Some(x) && ParseLine(lines[1]) == Some(y) && ParseLine(lines[2]) == Some(z)
    ensures ParseLines(lines) == Some(map[x.name := x.digest][y.name := y.digest][z.name := z.digest])
  {
    hide ParseLine;
    assert lines[..2][..1] == lines[..1];
    assert lines[..1][..0] == [];
    assert ParseLines(lines[..1]) == Some(map[x.name := x.digest]);
    assert ParseLines(lines[..2]) == Some(map[x.name := x.digest][y.name := y.digest]);
  }
}
