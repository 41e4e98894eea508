/** Names: where the list of names comes from (a names file, the command
    line, or two built-in defaults), how a names file is read, and how a name
    becomes a file-name stem. */
module Names {
  import opened Wrappers

  /** `s.replace(from, to)` for one-character arguments: every occurrence of
      `from` becomes `to` and nothing else changes. */
  function Replace(s: string, from: char, to: char): (r: string)
    ensures |r| == |s|
    ensures forall i :: 0 <= i < |s| ==> r[i] == (if s[i] == from then to else s[i])
  {
    if s == [] then []
    else Replace(s[..|s| - 1], from, to) + [if s[|s| - 1] == from then to else s[|s| - 1]]
  }

  /** The file-name stem of the component and painted scripts: spaces and
      slashes become underscores. */
  function SafeName(name: string): (r: string)
  {
    Replace(Replace(name, ' ', '_'), '/', '_')
  }

  predicate IsAsciiUpper(c: char)
  {
    'A' <= c <= 'Z'
  }

  /** `str.lower()` on ASCII letters; every other character is kept. */
  function AsciiLower(s: string): (r: string)
    ensures |r| == |s|
    ensures forall i :: 0 <= i < |s| ==>
      r[i] == (if IsAsciiUpper(s[i]) then (s[i] as int + 32) as char else s[i])
  {
    if s == [] then []
    else
      var c := s[|s| - 1];
      AsciiLower(s[..|s| - 1]) + [if IsAsciiUpper(c) then (c as int + 32) as char else c]
  }

  /** The file-name stem of the separate-objects script: lower-cased, spaces
      become underscores, slashes are kept. */
  function SafeNameLower(name: string): (r: string)
  {
    Replace(AsciiLower(name), ' ', '_')
  }

  /** A safe name holds no space and no slash, has the name's length, keeps
      every other character in place and puts an underscore where a space or
      a slash was. */
  lemma SafeNameClean(name: string)
    ensures var r := SafeName(name);
      |r| == |name| &&
      (forall i :: 0 <= i < |r| ==> r[i] != ' ' && r[i] != '/') &&
      (forall i :: 0 <= i < |name| ==>
        r[i] == (if name[i] == ' ' || name[i] == '/' then '_' else name[i]))
  {
  }

  /** Making a safe name twice changes nothing more. */
  lemma SafeNameIdempotent(name: string)
    ensures SafeName(SafeName(name)) == SafeName(name)
  {
    SafeNameClean(name);
    SafeNameClean(SafeName(name));
  }

  /** Different names can share a stem, and so share their staging files. */
  lemma SafeNameCollides()
    ensures SafeName("A B") == SafeName("A/B") == SafeName("A_B") == "A_B"
  {
    SafeNameClean("A B");
    SafeNameClean("A/B");
    SafeNameClean("A_B");
  }

  /** The lower-case stem holds no space and no ASCII capital, keeps a
      slash, and is stable under a second application. */
  lemma SafeNameLowerClean(name: string)
    ensures var r := SafeNameLower(name);
      |r| == |name| &&
      (forall i :: 0 <= i < |r| ==> r[i] != ' ' && !IsAsciiUpper(r[i])) &&
      (forall i :: 0 <= i < |name| ==> (name[i] == '/' <==> r[i] == '/')) &&
      SafeNameLower(r) == r
  {
    var r := SafeNameLower(name);
    var l := SafeNameLower(r);
    assert |l| == |r|;
    forall i | 0 <= i < |r|
      ensures l[i] == r[i]
    {
    }
  }

  /** Names that differ only in the case of ASCII letters share a stem. */
  lemma SafeNameLowerCaseBlind(a: string, b: string)
    requires |a| == |b|
    requires forall i :: 0 <= i < |a| ==> AsciiLower([a[i]]) == AsciiLower([b[i]])
    ensures SafeNameLower(a) == SafeNameLower(b)
  {
    var la, lb := AsciiLower(a), AsciiLower(b);
    forall i | 0 <= i < |a|
      ensures la[i] == lb[i]
    {
      assert AsciiLower([a[i]])[0] == la[i];
      assert AsciiLower([b[i]])[0] == lb[i];
    }
    assert la == lb;
  }

  lemma SafeNameLowerCollides()
    ensures SafeNameLower("Ann") == SafeNameLower("ann")
  {
    assert AsciiLower(['A']) == AsciiLower(['a']);
    SafeNameLowerCaseBlind("Ann", "ann");
  }

  /** `str.isspace()`: the characters Python treats as whitespace. */
  predicate IsSpace(c: char)
  {
    c == ' ' || '\t' <= c <= '\r' || '\U{1C}' <= c <= '\U{1F}' ||
    c == '\U{85}' || c == '\U{A0}' || c == '\U{1680}' || '\U{2000}' <= c <= '\U{200A}' ||
    c == '\U{2028}' || c == '\U{2029}' || c == '\U{202F}' || c == '\U{205F}' || c == '\U{3000}'
  }

  /** The leading whitespace of `s` removed. */
  function StripLeft(s: string): (r: string)
    ensures |r| <= |s| && r == s[|s| - |r|..]
    ensures forall i :: 0 <= i < |s| - |r| ==> IsSpace(s[i])
    ensures r == [] || !IsSpace(r[0])
  {
    if s != [] && IsSpace(s[0]) then
      var r := StripLeft(s[1..]);
      assert s[1..][|s| - 1 - |r|..] == s[|s| - |r|..];
      r
    else s
  }

  /** The trailing whitespace of `s` removed. */
  function StripRight(s: string): (r: string)
    ensures |r| <= |s| && r == s[..|r|]
    ensures forall i :: |r| <= i < |s| ==> IsSpace(s[i])
    ensures r == [] || !IsSpace(r[|r| - 1])
  {
    if s != [] && IsSpace(s[|s| - 1]) then StripRight(s[..|s| - 1]) else s
  }

  /** `str.strip()`. */
  function Strip(s: string): (r: string)
  {
    StripRight(StripLeft(s))
  }

  /** Non-empty, and neither starting nor ending with whitespace. */
  predicate Trimmed(x: string)
  {
    x != [] && !IsSpace(x[0]) && !IsSpace(x[|x| - 1])
  }

  /** A stripped string is empty or trimmed. */
  lemma StripTrimmed(s: string)
    ensures Strip(s) == [] || Trimmed(Strip(s))
  {
    var l := StripLeft(s);
    var r := StripRight(l);
    if r != [] {
      assert r[0] == l[0];
    }
  }

  /** `s[i..j]` is what is left once whitespace only is cut from both ends. */
  predicate CutAt(s: string, i: int, j: int)
  {
    0 <= i <= j <= |s| &&
    (forall k :: 0 <= k < i ==> IsSpace(s[k])) &&
    (forall k :: j <= k < |s| ==> IsSpace(s[k]))
  }

  /** A stripped string is the slice of `s` left once the whitespace at both
      ends is cut, and whatever was cut is whitespace. */
  lemma StripSlice(s: string)
    ensures exists i, j :: CutAt(s, i, j) && Strip(s) == s[i..j]
  {
    var l := StripLeft(s);
    var r := StripRight(l);
    var i := |s| - |l|;
    var j := i + |r|;
    assert r == s[i..j] by {
      assert l == s[i..] && r == l[..|r|];
    }
    assert forall k :: j <= k < |s| ==> IsSpace(s[k]) by {
      forall k | j <= k < |s|
        ensures IsSpace(s[k])
      {
        assert s[k] == l[k - i];
      }
    }
    assert CutAt(s, i, j);
  }

  /** What strips to nothing was all whitespace. */
  lemma StripEmptyAllSpace(s: string)
    ensures Strip(s) == [] ==> forall k :: 0 <= k < |s| ==> IsSpace(s[k])
  {
    var l := StripLeft(s);
    assert l != [] ==> StripRight(l) != [];
  }

  /** Whitespace alone strips to nothing. */
  lemma AllSpaceStripEmpty(s: string)
    ensures (forall k :: 0 <= k < |s| ==> IsSpace(s[k])) ==> Strip(s) == []
  {
    var l := StripLeft(s);
    assert l != [] ==> l[0] == s[|s| - |l|];
  }

  /** A line strips to nothing exactly when it is all whitespace. */
  lemma StripBlank(s: string)
    ensures Strip(s) == [] <==> forall k :: 0 <= k < |s| ==> IsSpace(s[k])
  {
    StripEmptyAllSpace(s);
    AllSpaceStripEmpty(s);
  }

  /** Stripping twice changes nothing more. */
  lemma StripIdempotent(s: string)
    ensures Strip(Strip(s)) == Strip(s)
  {
    StripSlice(s);
    StripTrimmed(s);
  }

  predicate IsNewline(c: char)
  {
    c == '\n' || c == '\r'
  }

  predicate NoNewline(x: string)
  {
    forall i :: 0 <= i < |x| ==> !IsNewline(x[i])
  }

  /** The characters of `s` that are not line breaks. */
  function WithoutNewlines(s: string): (r: string)
  {
    if s == [] then []
    else (if IsNewline(s[0]) then [] else [s[0]]) + WithoutNewlines(s[1..])
  }

  function NewlineCount(s: string): (r: nat)
    ensures r <= |s|
  {
    if s == [] then 0 else (if IsNewline(s[0]) then 1 else 0) + NewlineCount(s[1..])
  }

  function Concat(ls: seq<string>): (r: string)
  {
    if ls == [] then [] else ls[0] + Concat(ls[1..])
  }

  /** The lines of a text file read with universal newlines, split at every
      `\n` and every `\r`. A `\r\n` pair yields an extra empty line and a
      final line break a final empty line; neither survives `NonBlank`. */
  function Lines(s: string): (r: seq<string>)
    ensures |r| >= 1
  {
    if s == [] then [""]
    else
      var rest := Lines(s[1..]);
      if IsNewline(s[0]) then [""] + rest
      else [[s[0]] + rest[0]] + rest[1..]
  }

  /** There is one line more than there are line breaks. */
  lemma {:induction false} LinesCount(s: string)
    ensures |Lines(s)| == NewlineCount(s) + 1
  {
    if s != [] {
      LinesCount(s[1..]);
    }
  }

  /** The lines put back together are the text without its line breaks. */
  lemma {:induction false} LinesConcat(s: string)
    ensures Concat(Lines(s)) == WithoutNewlines(s)
  {
    if s != [] {
      var rest := Lines(s[1..]);
      LinesConcat(s[1..]);
      var r := Lines(s);
      if IsNewline(s[0]) {
        assert r[1..] == rest;
      } else {
        var first := [s[0]] + rest[0];
        assert r[0] == first && r[1..] == rest[1..];
        calc {
          Concat(r);
          first + Concat(rest[1..]);
          [s[0]] + (rest[0] + Concat(rest[1..]));
          [s[0]] + Concat(rest);
        }
      }
    }
  }

  /** No line holds a line break. */
  lemma {:induction false} LinesClean(s: string)
    ensures forall x :: x in Lines(s) ==> NoNewline(x)
  {
    if s != [] {
      var rest := Lines(s[1..]);
      LinesClean(s[1..]);
      var r := Lines(s);
      if !IsNewline(s[0]) {
        var first := [s[0]] + rest[0];
        assert r == [first] + rest[1..];
        assert NoNewline(first) by {
          assert rest[0] in rest;
          assert forall i :: 1 <= i < |first| ==> first[i] == rest[0][i - 1];
        }
        assert forall x :: x in rest[1..] ==> x in rest;
      } else {
        assert r == [""] + rest;
      }
    }
  }

  /** A text without line breaks is one line. */
  lemma {:induction false} LinesOne(a: string)
    requires NoNewline(a)
    ensures Lines(a) == [a]
  {
    if a != [] {
      LinesOne(a[1..]);
      assert [a[0]] + a[1..] == a;
    }
  }

  /** The first line break ends the first line, and the lines after it are
      the lines of the rest: lines come out one per break, in file order. */
  lemma {:induction false} LinesBreak(a: string, c: char, b: string)
    requires NoNewline(a) && IsNewline(c)
    ensures Lines(a + [c] + b) == [a] + Lines(b)
  {
    var s := a + [c] + b;
    if a == [] {
      assert s[1..] == b;
    } else {
      assert s[1..] == a[1..] + [c] + b;
      LinesBreak(a[1..], c, b);
      assert [a[0]] + a[1..] == a;
    }
  }

  /** What one line contributes: its stripped form, unless that is empty. */
  function Kept(line: string): (r: seq<string>)
  {
    if Strip(line) != [] then [Strip(line)] else []
  }

  /** `[line.strip() for line in f if line.strip()]`. */
  function NonBlank(lines: seq<string>): (r: seq<string>)
    ensures |r| <= |lines|
  {
    if lines == [] then [] else Kept(lines[0]) + NonBlank(lines[1..])
  }

  /** Every name kept is trimmed. */
  lemma {:induction false} NonBlankTrimmed(lines: seq<string>)
    ensures forall x :: x in NonBlank(lines) ==> Trimmed(x)
  {
    if lines != [] {
      StripTrimmed(lines[0]);
      NonBlankTrimmed(lines[1..]);
      assert forall x :: x in NonBlank(lines) ==> x in Kept(lines[0]) || x in NonBlank(lines[1..]);
    }
  }

  /** Reading the names file line by line keeps the order of the lines:
      reading two pieces is reading each. */
  lemma {:induction false} NonBlankAppend(a: seq<string>, b: seq<string>)
    ensures NonBlank(a + b) == NonBlank(a) + NonBlank(b)
  {
    if a == [] {
      assert a + b == b;
    } else {
      var ab := a + b;
      assert ab[0] == a[0];
      assert ab[1..] == a[1..] + b;
      NonBlankAppend(a[1..], b);
      calc {
        NonBlank(ab);
        Kept(a[0]) + NonBlank(a[1..] + b);
        Kept(a[0]) + (NonBlank(a[1..]) + NonBlank(b));
        (Kept(a[0]) + NonBlank(a[1..])) + NonBlank(b);
        NonBlank(a) + NonBlank(b);
      }
    }
  }

  /** A name read from the file is the stripped form of one of its lines,
      and every line that is not blank contributes its stripped form. */
  lemma {:induction false} NonBlankMembers(lines: seq<string>)
    ensures forall x :: x in NonBlank(lines) ==> exists l :: l in lines && x == Strip(l)
    ensures forall l :: l in lines && Strip(l) != [] ==> Strip(l) in NonBlank(lines)
  {
    if lines != [] {
      var rest := lines[1..];
      NonBlankMembers(rest);
      var r := NonBlank(lines);
      assert r == Kept(lines[0]) + NonBlank(rest);
      forall x | x in r
        ensures exists l :: l in lines && x == Strip(l)
      {
        if x in Kept(lines[0]) {
          assert lines[0] in lines;
        } else {
          var l :| l in rest && x == Strip(l);
          assert l in lines;
        }
      }
      forall l | l in lines && Strip(l) != []
        ensures Strip(l) in r
      {
        if l != lines[0] {
          assert l in rest;
        }
      }
    }
  }

  /** Stripping a line adds no character to it. */
  lemma StripNoNewline(l: string)
    requires NoNewline(l)
    ensures NoNewline(Strip(l))
  {
    var left := StripLeft(l);
    var r := StripRight(left);
    forall i | 0 <= i < |r|
      ensures r[i] == l[|l| - |left| + i]
    {
      assert r[i] == left[i];
    }
  }

  /** Lines free of line breaks give names free of line breaks. */
  lemma {:induction false} NonBlankNoNewline(lines: seq<string>)
    requires forall x :: x in lines ==> NoNewline(x)
    ensures forall x :: x in NonBlank(lines) ==> NoNewline(x)
  {
    if lines != [] {
      var rest := lines[1..];
      assert forall x :: x in rest ==> x in lines;
      NonBlankNoNewline(rest);
      assert lines[0] in lines;
      StripNoNewline(lines[0]);
      assert forall x :: x in NonBlank(lines) ==> x in Kept(lines[0]) || x in NonBlank(rest);
    }
  }

  /** The names a names file holds. */
  function NamesFromFile(content: string): (r: seq<string>)
  {
    NonBlank(Lines(content))
  }

  /** A name from a file is one line of the file, trimmed: it is not empty,
      neither starts nor ends with whitespace and holds no line break; there
      are no more names than lines. */
  lemma NamesFromFileClean(content: string)
    ensures forall x :: x in NamesFromFile(content) ==> Trimmed(x) && NoNewline(x)
    ensures |NamesFromFile(content)| <= NewlineCount(content) + 1
  {
    var lines := Lines(content);
    LinesCount(content);
    LinesClean(content);
    NonBlankTrimmed(lines);
    NonBlankNoNewline(lines);
  }

  const DefaultNames: seq<string> := ["Hadi Jaffri", "Hussein Naqi"]

  /** `main`: the names file when it exists (None when it does not), else
      the command-line arguments after the program name when there are any,
      else the two default names. */
  function SelectNames(namesFile: Option<string>, argv: seq<string>): (r: seq<string>)
  {
    if namesFile.Some? then NamesFromFile(namesFile.value)
    else if |argv| > 1 then argv[1..]
    else DefaultNames
  }

  /** An existing names file decides the names whatever the arguments say,
      even when it holds no name at all; without one the arguments are taken
      verbatim (not stripped, blank ones included) and never come out empty. */
  lemma SelectNamesSources(namesFile: Option<string>, argv: seq<string>, other: seq<string>)
    ensures namesFile.Some? ==> SelectNames(namesFile, argv) == SelectNames(namesFile, other)
    ensures namesFile.None? ==> |SelectNames(namesFile, argv)| >= 1
    ensures |argv| > 1 ==> SelectNames(None, argv) == argv[1..]
  {
  }

  /** An existing but empty names file gives no names at all, whatever the
      arguments say. */
  lemma EmptyNamesFile(argv: seq<string>)
    ensures SelectNames(Some(""), argv) == []
  {
    assert Lines("") == [""];
    assert Strip("") == [];
  }
}
