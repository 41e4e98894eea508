/** Transforms as the scripts write them: space-separated number text. The
    3MF Core Specification, chapter 3, lists a 3D matrix as twelve values
    `m00 m01 m02 m10 m11 m12 m20 m21 m22 m30 m31 m32` (a 3x3 linear part,
    row by row, then the translation row); Bambu's `matrix` part metadata is
    a 4x4 matrix of sixteen values, row by row. Every literal in the scripts
    uses only the digits 0 and 1, so numbers are parsed as non-negative
    decimal integers. */
module Transforms {
  import opened Wrappers

  /** `component` transform, generate_bambu_3mf.py:214 and :220, and the
      `assemble_item` transform (generate_bambu_3mf.py:357,
      generate_nameplates.py:316). */
  const UnitTransform: string := "1 0 0 0 1 0 0 0 1 0 0 0"

  /** The build-item transform of generate_bambu_3mf.py:227. */
  const BuildItemTransform: string := "1 0 0 0 0 1 0 0 0 0 1 0"

  /** The part `matrix` metadata (generate_bambu_3mf.py:293 and :315,
      generate_nameplates.py:259). */
  const PartMatrix: string := "1 0 0 0 0 1 0 0 0 0 1 0 0 0 0 1"

  /** Splitting on single spaces, as `s.split(' ')` does. */
  function SplitFrom(s: string, current: string): (r: seq<string>)
    requires forall i :: 0 <= i < |current| ==> current[i] != ' '
    ensures |r| >= 1
    ensures forall k, i :: 0 <= k < |r| && 0 <= i < |r[k]| ==> r[k][i] != ' '
    decreases |s|
  {
    if s == [] then [current]
    else if s[0] == ' ' then [current] + SplitFrom(s[1..], "")
    else SplitFrom(s[1..], current + [s[0]])
  }

  function Split(s: string): seq<string>
  {
    SplitFrom(s, "")
  }

  /** `' '.join(fields)`. */
  function JoinSpaces(fields: seq<string>): string
  {
    if fields == [] then []
    else if |fields| == 1 then fields[0]
    else fields[0] + " " + JoinSpaces(fields[1..])
  }

  /** Splitting loses nothing: the fields joined with single spaces give the
      text back, the field under way included. */
  lemma {:induction false} SplitJoin(s: string, current: string)
    requires forall i :: 0 <= i < |current| ==> current[i] != ' '
    ensures JoinSpaces(SplitFrom(s, current)) == current + s
    decreases |s|
  {
    if s == [] {
    } else if s[0] == ' ' {
      var rest := SplitFrom(s[1..], "");
      SplitJoin(s[1..], "");
      assert SplitFrom(s, current) == [current] + rest;
      assert ([current] + rest)[1..] == rest;
      assert current + " " + s[1..] == current + s;
    } else {
      SplitJoin(s[1..], current + [s[0]]);
      assert current + [s[0]] + s[1..] == current + s;
    }
  }

  /** `s.split(' ')` round-trips through `' '.join`. */
  lemma SplitRoundTrip(s: string)
    ensures JoinSpaces(Split(s)) == s
  {
    SplitJoin(s, "");
  }

  predicate IsDigit(c: char)
  {
    '0' <= c <= '9'
  }

  function DigitValue(c: char): nat
    requires IsDigit(c)
  {
    c as int - '0' as int
  }

  /** The value of a string of decimal digits (the empty string gives 0). */
  function DigitsValue(s: string): nat
    requires forall i :: 0 <= i < |s| ==> IsDigit(s[i])
  {
    if s == [] then 0 else DigitsValue(s[..|s| - 1]) * 10 + DigitValue(s[|s| - 1])
  }

  /** A token that is a non-empty run of decimal digits. */
  function ParseNat(token: string): Option<nat>
  {
    if token != [] && forall i :: 0 <= i < |token| ==> IsDigit(token[i])
    then Some(DigitsValue(token))
    else None
  }

  function ParseAll(tokens: seq<string>): Option<seq<int>>
  {
    if tokens == [] then Some([])
    else
      var head := ParseNat(tokens[0]);
      var tail := ParseAll(tokens[1..]);
      if head.Some? && tail.Some? then Some([head.value] + tail.value) else None
  }

  /** A transform's text as its list of numbers, or None if a token is not a
      number. */
  function ParseNumbers(s: string): Option<seq<int>>
  {
    ParseAll(Split(s))
  }

  /** The 3MF identity: twelve values, value `k` sits in row `k / 3` and
      column `k % 3`, and exactly the diagonal of the 3x3 part is 1 (row 3,
      the translation, is all 0). */
  predicate IsIdentity3MF(m: seq<int>)
  {
    |m| == 12 && forall k :: 0 <= k < 12 ==> m[k] == if k / 3 == k % 3 then 1 else 0
  }

  /** The 4x4 identity, sixteen values row by row. */
  predicate IsIdentity4x4(m: seq<int>)
  {
    |m| == 16 && forall k :: 0 <= k < 16 ==> m[k] == if k / 4 == k % 4 then 1 else 0
  }

  /** Text made of single-digit numbers separated by single spaces, the
      shape of every transform literal in the scripts. */
  predicate SingleDigitFields(s: string)
  {
    |s| % 2 == 1 &&
    forall k :: 0 <= k < |s| ==> if k % 2 == 0 then IsDigit(s[k]) else s[k] == ' '
  }

  /** The numbers such a text spells, read position by position. */
  function FieldValues(s: string): (r: seq<int>)
    requires SingleDigitFields(s)
    ensures |r| == (|s| + 1) / 2
  {
    seq((|s| + 1) / 2, k requires 0 <= k < (|s| + 1) / 2 => DigitValue(s[2 * k]))
  }

  lemma {:induction false} SplitSingleDigits(s: string)
    requires SingleDigitFields(s)
    ensures Split(s) == seq((|s| + 1) / 2, k requires 0 <= k < (|s| + 1) / 2 => [s[2 * k]])
  {
    assert "" + [s[0]] == [s[0]];
    assert SplitFrom(s, "") == SplitFrom(s[1..], [s[0]]);
    if |s| == 1 {
      assert s[1..] == [];
    } else {
      var rest := s[2..];
      assert s[1..][0] == ' ' && s[1..][1..] == rest;
      assert SplitFrom(s[1..], [s[0]]) == [[s[0]]] + SplitFrom(rest, "");
      assert SingleDigitFields(rest) by {
        forall k | 0 <= k < |rest|
          ensures if k % 2 == 0 then IsDigit(rest[k]) else rest[k] == ' '
        {
          assert rest[k] == s[k + 2];
        }
      }
      SplitSingleDigits(rest);
    }
  }

  predicate SingleDigitTokens(tokens: seq<string>)
  {
    forall i :: 0 <= i < |tokens| ==> |tokens[i]| == 1 && IsDigit(tokens[i][0])
  }

  function TokenValues(tokens: seq<string>): (r: seq<int>)
    requires SingleDigitTokens(tokens)
    ensures |r| == |tokens|
  {
    seq(|tokens|, i requires 0 <= i < |tokens| => DigitValue(tokens[i][0]))
  }

  lemma {:induction false} ParseSingleDigitTokens(tokens: seq<string>)
    requires SingleDigitTokens(tokens)
    ensures ParseAll(tokens) == Some(TokenValues(tokens))
  {
    if tokens != [] {
      var tail := tokens[1..];
      ParseSingleDigitTokens(tail);
      assert DigitsValue(tokens[0]) == DigitValue(tokens[0][0]) by {
        assert tokens[0][..0] == [];
      }
      assert ParseNat(tokens[0]) == Some(DigitValue(tokens[0][0]));
      assert [DigitValue(tokens[0][0])] + TokenValues(tail) == TokenValues(tokens);
    }
  }

  /** Parsing such a text gives exactly the numbers it spells. */
  lemma ParseDigitFields(s: string, values: seq<int>)
    requires SingleDigitFields(s) && FieldValues(s) == values
    ensures ParseNumbers(s) == Some(values)
  {
    SplitSingleDigits(s);
    var tokens := Split(s);
    ParseSingleDigitTokens(tokens);
    assert TokenValues(tokens) == FieldValues(s);
  }

  /** The numbers the three literals spell. */
  const UnitTransformValues: seq<int> := [1, 0, 0, 0, 1, 0, 0, 0, 1, 0, 0, 0]
  const BuildItemTransformValues: seq<int> := [1, 0, 0, 0, 0, 1, 0, 0, 0, 0, 1, 0]
  const PartMatrixValues: seq<int> := [1, 0, 0, 0, 0, 1, 0, 0, 0, 0, 1, 0, 0, 0, 0, 1]

  lemma UnitTransformShape()
    ensures SingleDigitFields(UnitTransform)
  {
    var s := UnitTransform;
    forall k | 0 <= k < |s|
      ensures if k % 2 == 0 then IsDigit(s[k]) else s[k] == ' '
    {
      if k % 2 == 0 {
        assert s[k] == '0' || s[k] == '1';
      }
    }
  }

  lemma BuildItemTransformShape()
    ensures SingleDigitFields(BuildItemTransform)
  {
    var s := BuildItemTransform;
    forall k | 0 <= k < |s|
      ensures if k % 2 == 0 then IsDigit(s[k]) else s[k] == ' '
    {
      if k % 2 == 0 {
        assert s[k] == '0' || s[k] == '1';
      }
    }
  }

  lemma PartMatrixShape()
    ensures SingleDigitFields(PartMatrix)
  {
    var s := PartMatrix;
    forall k | 0 <= k < |s|
      ensures if k % 2 == 0 then IsDigit(s[k]) else s[k] == ' '
    {
      if k % 2 == 0 {
        assert s[k] == '0' || s[k] == '1';
      }
    }
  }

  lemma UnitTransformSpells()
    ensures SingleDigitFields(UnitTransform) && FieldValues(UnitTransform) == UnitTransformValues
  {
    UnitTransformShape();
    var f := FieldValues(UnitTransform);
    forall k | 0 <= k < 12
      ensures f[k] == UnitTransformValues[k]
    {
      assert f[k] == DigitValue(UnitTransform[2 * k]);
    }
  }

  lemma BuildItemTransformSpells()
    ensures SingleDigitFields(BuildItemTransform) && FieldValues(BuildItemTransform) == BuildItemTransformValues
  {
    BuildItemTransformShape();
    var f := FieldValues(BuildItemTransform);
    forall k | 0 <= k < 12
      ensures f[k] == BuildItemTransformValues[k]
    {
      assert f[k] == DigitValue(BuildItemTransform[2 * k]);
    }
  }

  lemma PartMatrixSpells()
    ensures SingleDigitFields(PartMatrix) && FieldValues(PartMatrix) == PartMatrixValues
  {
    PartMatrixShape();
    var f := FieldValues(PartMatrix);
    forall k | 0 <= k < 16
      ensures f[k] == PartMatrixValues[k]
    {
      assert f[k] == DigitValue(PartMatrix[2 * k]);
    }
  }

  /** The identity facts, read off the value lists. */
  lemma ValuesShape()
    ensures IsIdentity3MF(UnitTransformValues)
    ensures IsIdentity4x4(PartMatrixValues)
    ensures !IsIdentity3MF(BuildItemTransformValues)
    ensures BuildItemTransformValues == PartMatrixValues[..12]
  {
    assert BuildItemTransformValues[5] != if 5 / 3 == 5 % 3 then 1 else 0;
  }

  /** The component and `assemble_item` transform is the 3MF identity. */
  lemma UnitTransformIsIdentity()
    ensures ParseNumbers(UnitTransform) == Some(UnitTransformValues)
    ensures IsIdentity3MF(UnitTransformValues)
  {
    UnitTransformSpells();
    ParseDigitFields(UnitTransform, UnitTransformValues);
    ValuesShape();
  }

  /** The part `matrix` is the 4x4 identity. */
  lemma PartMatrixIsIdentity()
    ensures ParseNumbers(PartMatrix) == Some(PartMatrixValues)
    ensures IsIdentity4x4(PartMatrixValues)
  {
    PartMatrixSpells();
    ParseDigitFields(PartMatrix, PartMatrixValues);
    ValuesShape();
  }

  /** The build-item literal, although its comment calls it an identity, is
      not the 3MF identity: read in 3MF order it has m11 = 0, m12 = 1 and
      m22 = 0 (a singular linear part). Its twelve values are the first twelve
      of the 4x4 identity `matrix`, cut off after the third row. */
  lemma BuildItemTransformIsNotIdentity()
    ensures ParseNumbers(BuildItemTransform) == Some(BuildItemTransformValues)
    ensures !IsIdentity3MF(BuildItemTransformValues)
    ensures BuildItemTransformValues[4] == 0 && BuildItemTransformValues[5] == 1 && BuildItemTransformValues[8] == 0
    ensures BuildItemTransformValues == PartMatrixValues[..12]
  {
    BuildItemTransformSpells();
    ParseDigitFields(BuildItemTransform, BuildItemTransformValues);
    ValuesShape();
  }
}
