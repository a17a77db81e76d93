// The pieces of Go's `strings` and `strconv` packages the services rely on,
// over strings modelled as sequences of code points.
module GoStrings {

  import opened Common

  const MinInt64: int := -0x8000_0000_0000_0000
  const MaxInt64: int := 0x7FFF_FFFF_FFFF_FFFF

  /** The characters `unicode.IsSpace` accepts (Latin-1 spaces and the
      Unicode White_Space property). */
  const Whitespace: set<char> := {
    '\t', '\n', '\U{000B}', '\U{000C}', '\r', ' ', '\U{0085}', '\U{00A0}',
    '\U{1680}', '\U{2000}', '\U{2001}', '\U{2002}', '\U{2003}', '\U{2004}',
    '\U{2005}', '\U{2006}', '\U{2007}', '\U{2008}', '\U{2009}', '\U{200A}',
    '\U{2028}', '\U{2029}', '\U{202F}', '\U{205F}', '\U{3000}'
  }

  // ---------------------------------------------------------------- search

  predicate HasPrefix(s: string, prefix: string)
  {
    |prefix| <= |s| && s[..|prefix|] == prefix
  }

  /** `strings.Contains(s, sub)`. */
  predicate Contains(s: string, sub: string)
    decreases |s|
  {
    HasPrefix(s, sub) || (|s| > 0 && Contains(s[1..], sub))
  }

  /** `sub` occurring at position `i` is enough for `Contains`. */
  lemma {:induction false} ContainsAt(s: string, sub: string, i: nat)
    requires i + |sub| <= |s| && s[i..i + |sub|] == sub
    ensures Contains(s, sub)
  {
    if i > 0 {
      assert s[1..][i - 1..i - 1 + |sub|] == s[i..i + |sub|];
      ContainsAt(s[1..], sub, i - 1);
    }
  }

  /** Conversely, `Contains` always has a witness position. */
  lemma {:induction false} ContainsWitness(s: string, sub: string) returns (i: nat)
    requires Contains(s, sub)
    ensures i + |sub| <= |s| && s[i..i + |sub|] == sub
  {
    if HasPrefix(s, sub) {
      i := 0;
    } else {
      var j := ContainsWitness(s[1..], sub);
      assert s[1..][j..j + |sub|] == s[j + 1..j + 1 + |sub|];
      i := j + 1;
    }
  }

  /** A one-character search finds exactly the characters the string has. */
  lemma ContainsChar(s: string, c: char)
    ensures Contains(s, [c]) <==> c in s
  {
    if Contains(s, [c]) {
      var i := ContainsWitness(s, [c]);
      assert s[i] == s[i..i + 1][0];
    }
    if c in s {
      var i :| 0 <= i < |s| && s[i] == c;
      assert s[i..i + 1] == [c];
      ContainsAt(s, [c], i);
    }
  }

  /** Text put in front of a string never hides what the string contains. */
  lemma ContainsAfterPrefix(p: string, m: string, sub: string)
    requires Contains(m, sub)
    ensures Contains(p + m, sub)
  {
    var i := ContainsWitness(m, sub);
    assert (p + m)[|p| + i..|p| + i + |sub|] == m[i..i + |sub|];
    ContainsAt(p + m, sub, |p| + i);
  }

  /** A string contains what it starts with. */
  lemma ContainsFront(sub: string, rest: string)
    ensures Contains(sub + rest, sub)
  {
    assert (sub + rest)[..|sub|] == sub;
  }

  /** A string contains every piece it is built from. */
  lemma ContainsInside(p: string, sub: string, rest: string)
    ensures Contains(p + sub + rest, sub)
  {
    ContainsFront(sub, rest);
    ContainsAfterPrefix(p, sub + rest, sub);
    assert p + sub + rest == p + (sub + rest);
  }

  /** A message that wraps an error contains everything the wrapped message contains. */
  lemma WrappedMessageContains(e: Error, target: Error, sub: string)
    requires ErrorIs(e, target) && Contains(Message(target), sub)
    ensures Contains(Message(e), sub)
  {
    var p := WrappedMessageEndsWithCause(e, target);
    ContainsAfterPrefix(p, Message(target), sub);
  }

  lemma {:induction false} ContainsNeedsRoom(s: string, sub: string)
    requires Contains(s, sub)
    ensures |sub| <= |s|
  {
    if !HasPrefix(s, sub) {
      ContainsNeedsRoom(s[1..], sub);
    }
  }

  // ------------------------------------------------------- split and join

  /** Splits `s` at every character of `seps`, keeping empty pieces
      (`strings.Split` when `seps` is a single character). */
  function SplitOn(s: string, seps: set<char>): (pieces: seq<string>)
    ensures |pieces| >= 1
    ensures forall i :: 0 <= i < |pieces| ==> forall c :: c in pieces[i] ==> c !in seps
  {
    if |s| == 0 then [""]
    else
      var rest := SplitOn(s[1..], seps);
      if s[0] in seps then [""] + rest
      else [[s[0]] + rest[0]] + rest[1..]
  }

  /** `strings.Split(s, sep)` for a one-character separator. */
  function Split(s: string, sep: char): seq<string>
  {
    SplitOn(s, {sep})
  }

  /** `strings.Join(parts, sep)`. */
  function Join(parts: seq<string>, sep: string): string
  {
    if |parts| == 0 then ""
    else if |parts| == 1 then parts[0]
    else parts[0] + sep + Join(parts[1..], sep)
  }

  /** A join starts with its first part and ends with its last. */
  lemma {:induction false} JoinEnds(parts: seq<string>, sep: string)
    requires |parts| >= 1
    ensures var j := Join(parts, sep); var last := parts[|parts| - 1];
      |parts[0]| <= |j| && j[..|parts[0]|] == parts[0] &&
      |last| <= |j| && j[|j| - |last|..] == last
  {
    if |parts| > 1 {
      JoinEnds(parts[1..], sep);
      var rest := Join(parts[1..], sep);
      assert Join(parts, sep) == parts[0] + sep + rest;
      assert (parts[0] + sep + rest)[..|parts[0]|] == parts[0];
      var last := parts[|parts| - 1];
      assert (parts[0] + sep + rest)[|parts[0] + sep + rest| - |last|..] == rest[|rest| - |last|..];
    }
  }

  /** A join holds no character that neither the parts nor the separator hold. */
  lemma {:induction false} JoinAvoids(parts: seq<string>, sep: string, bad: set<char>)
    requires forall i :: 0 <= i < |parts| ==> forall c :: c in parts[i] ==> c !in bad
    requires forall c :: c in sep ==> c !in bad
    ensures forall c :: c in Join(parts, sep) ==> c !in bad
  {
    if |parts| > 1 {
      JoinAvoids(parts[1..], sep, bad);
      assert Join(parts, sep) == parts[0] + sep + Join(parts[1..], sep);
    }
  }

  /** Joining the pieces of a split with its separator gives the string back. */
  lemma {:induction false} JoinSplit(s: string, sep: char)
    ensures Join(Split(s, sep), [sep]) == s
  {
    if |s| > 0 {
      JoinSplit(s[1..], sep);
      var rest := Split(s[1..], sep);
      if s[0] == sep {
        assert Split(s, sep) == [""] + rest;
        assert ([""] + rest)[1..] == rest;
      } else {
        assert Split(s, sep) == [[s[0]] + rest[0]] + rest[1..];
        if |rest| > 1 {
          var parts := [[s[0]] + rest[0]] + rest[1..];
          assert parts[1..] == rest[1..];
          assert Join(rest, [sep]) == rest[0] + [sep] + Join(rest[1..], [sep]);
        }
      }
    }
  }

  /** The string itself when it contains no separator. */
  lemma {:induction false} SplitOnWithoutSeparator(s: string, seps: set<char>)
    requires forall c :: c in s ==> c !in seps
    ensures SplitOn(s, seps) == [s]
  {
    if |s| > 0 {
      SplitOnWithoutSeparator(s[1..], seps);
      assert [s[0]] + s[1..] == s;
    }
  }

  lemma SplitWithoutSeparator(s: string, sep: char)
    requires sep !in s
    ensures Split(s, sep) == [s]
  {
    SplitOnWithoutSeparator(s, {sep});
  }

  /** Joining pieces that contain no separator with one of the separators,
      and splitting again, gives them back. */
  lemma {:induction false} SplitOnJoin(parts: seq<string>, sep: char, seps: set<char>)
    requires |parts| >= 1 && sep in seps
    requires forall i :: 0 <= i < |parts| ==> forall c :: c in parts[i] ==> c !in seps
    ensures SplitOn(Join(parts, [sep]), seps) == parts
  {
    if |parts| == 1 {
      SplitOnWithoutSeparator(parts[0], seps);
    } else {
      SplitOnJoin(parts[1..], sep, seps);
      SplitOnAfterPiece(parts[0], Join(parts[1..], [sep]), sep, seps);
      assert [parts[0]] + parts[1..] == parts;
    }
  }

  lemma SplitJoin(parts: seq<string>, sep: char)
    requires |parts| >= 1
    requires forall i :: 0 <= i < |parts| ==> sep !in parts[i]
    ensures Split(Join(parts, [sep]), sep) == parts
  {
    SplitOnJoin(parts, sep, {sep});
  }

  lemma {:induction false} SplitOnAfterPiece(piece: string, tail: string, sep: char, seps: set<char>)
    requires sep in seps && forall c :: c in piece ==> c !in seps
    ensures SplitOn(piece + [sep] + tail, seps) == [piece] + SplitOn(tail, seps)
  {
    if |piece| == 0 {
      assert piece + [sep] + tail == [sep] + tail;
      assert ([sep] + tail)[1..] == tail;
    } else {
      SplitOnAfterPiece(piece[1..], tail, sep, seps);
      assert (piece + [sep] + tail)[1..] == piece[1..] + [sep] + tail;
      assert [piece[0]] + piece[1..] == piece;
    }
  }

  /** The non-empty pieces, in order (the filter both role parsers apply). */
  function NonEmpty(parts: seq<string>): (kept: seq<string>)
    ensures |kept| <= |parts|
    ensures forall i :: 0 <= i < |kept| ==> kept[i] != "" && kept[i] in parts
  {
    if |parts| == 0 then []
    else
      var init := NonEmpty(parts[..|parts| - 1]);
      if parts[|parts| - 1] == "" then init else init + [parts[|parts| - 1]]
  }

  /** Keeping only the non-empty entries of a list without empty entries keeps all of it. */
  lemma {:induction false} NonEmptyOfWords(parts: seq<string>)
    requires forall i :: 0 <= i < |parts| ==> parts[i] != ""
    ensures NonEmpty(parts) == parts
  {
    if |parts| > 0 {
      NonEmptyOfWords(parts[..|parts| - 1]);
      assert parts[..|parts| - 1] + [parts[|parts| - 1]] == parts;
    }
  }

  /** `strings.Fields(s)`: the maximal runs of non-space characters. */
  function Fields(s: string): (fields: seq<string>)
    ensures forall i :: 0 <= i < |fields| ==> fields[i] != ""
    ensures forall i :: 0 <= i < |fields| ==> forall c :: c in fields[i] ==> c !in Whitespace
  {
    var pieces := SplitOn(s, Whitespace);
    var kept := NonEmpty(pieces);
    assert forall i :: 0 <= i < |kept| ==> exists j :: 0 <= j < |pieces| && kept[i] == pieces[j];
    kept
  }

  /** Words without white space, joined by single spaces, are read back by
      `strings.Fields`. */
  lemma FieldsOfJoin(words: seq<string>)
    requires |words| >= 1
    requires forall i :: 0 <= i < |words| ==> words[i] != "" && forall c :: c in words[i] ==> c !in Whitespace
    ensures Fields(Join(words, " ")) == words
  {
    assert ' ' in Whitespace;
    SplitOnJoin(words, ' ', Whitespace);
    NonEmptyOfWords(words);
  }

  /** A string made only of white space has no fields, and one with a
      non-space character has at least one. */
  lemma FieldsEmptyIff(s: string)
    ensures Fields(s) == [] <==> forall c :: c in s ==> c in Whitespace
  {
    if forall c :: c in s ==> c in Whitespace {
      AllSpacePiecesEmpty(s);
      NonEmptyOfEmpties(SplitOn(s, Whitespace));
    } else {
      var c :| c in s && c !in Whitespace;
      var i := PieceHolding(s, Whitespace, c);
      NonEmptyKeeps(SplitOn(s, Whitespace), i);
    }
  }

  lemma {:induction false} AllSpacePiecesEmpty(s: string)
    requires forall c :: c in s ==> c in Whitespace
    ensures forall i :: 0 <= i < |SplitOn(s, Whitespace)| ==> SplitOn(s, Whitespace)[i] == ""
  {
    if |s| > 0 {
      AllSpacePiecesEmpty(s[1..]);
    }
  }

  lemma {:induction false} NonEmptyOfEmpties(parts: seq<string>)
    requires forall i :: 0 <= i < |parts| ==> parts[i] == ""
    ensures NonEmpty(parts) == []
  {
    if |parts| > 0 {
      NonEmptyOfEmpties(parts[..|parts| - 1]);
    }
  }

  lemma {:induction false} NonEmptyKeeps(parts: seq<string>, i: nat)
    requires i < |parts| && parts[i] != ""
    ensures NonEmpty(parts) != []
  {
    if i < |parts| - 1 {
      NonEmptyKeeps(parts[..|parts| - 1], i);
    }
  }

  /** A character outside the separators ends up in some piece. */
  lemma {:induction false} PieceHolding(s: string, seps: set<char>, c: char) returns (i: nat)
    requires c in s && c !in seps
    ensures i < |SplitOn(s, seps)| && c in SplitOn(s, seps)[i]
  {
    var rest := SplitOn(s[1..], seps);
    if s[0] == c {
      i := 0;
    } else {
      var j := PieceHolding(s[1..], seps, c);
      if s[0] in seps {
        i := j + 1;
      } else if j == 0 {
        i := 0;
      } else {
        i := j;
      }
    }
  }

  // ----------------------------------------------------------------- trim

  function TrimLeft(s: string, cutset: set<char>): (r: string)
    ensures |r| <= |s| && r == s[|s| - |r|..]
    ensures |r| > 0 ==> r[0] !in cutset
  {
    if |s| > 0 && s[0] in cutset then TrimLeft(s[1..], cutset) else s
  }

  function TrimRight(s: string, cutset: set<char>): (r: string)
    ensures |r| <= |s| && r == s[..|r|]
    ensures |r| > 0 ==> r[|r| - 1] !in cutset
  {
    if |s| > 0 && s[|s| - 1] in cutset then TrimRight(s[..|s| - 1], cutset) else s
  }

  /** `strings.Trim(s, cutset)`: drops the cutset characters at both ends. */
  function Trim(s: string, cutset: set<char>): string
  {
    TrimRight(TrimLeft(s, cutset), cutset)
  }

  /** One cutset character in front is dropped, and trimming stops at the
      first character outside the cutset. */
  lemma TrimLeftDropsOne(c: char, s: string, cutset: set<char>)
    requires c in cutset && |s| > 0 && s[0] !in cutset
    ensures TrimLeft([c] + s, cutset) == s
  {
    assert ([c] + s)[1..] == s;
  }

  /** One cutset character at the end is dropped, and trimming stops at the
      last character outside the cutset. */
  lemma TrimRightDropsOne(s: string, c: char, cutset: set<char>)
    requires c in cutset && |s| > 0 && s[|s| - 1] !in cutset
    ensures TrimRight(s + [c], cutset) == s
  {
    assert (s + [c])[..|s|] == s;
  }

  /** Wrapping a string whose ends are outside the cutset in one cutset
      character on each side is undone by trimming. */
  lemma TrimBracketed(s: string, open: char, close: char)
    requires |s| > 0 && s[0] !in {open, close} && s[|s| - 1] !in {open, close}
    ensures Trim([open] + s + [close], {open, close}) == s
  {
    var cut, closed := {open, close}, s + [close];
    assert closed[0] == s[0];
    assert [open] + s + [close] == [open] + closed;
    TrimLeftDropsOne(open, closed, cut);
    TrimRightDropsOne(s, close, cut);
    calc {
      Trim([open] + closed, cut);
      TrimRight(TrimLeft([open] + closed, cut), cut);
      TrimRight(closed, cut);
    }
  }

  // -------------------------------------------------------- integer text

  predicate IsDigit(c: char)
  {
    '0' <= c <= '9'
  }

  predicate AllDigits(s: string)
  {
    forall i :: 0 <= i < |s| ==> IsDigit(s[i])
  }

  /** The value of a run of decimal digits. */
  function DigitsValue(s: string): nat
    requires AllDigits(s)
  {
    if |s| == 0 then 0
    else DigitsValue(s[..|s| - 1]) * 10 + (s[|s| - 1] as int - '0' as int)
  }

  /** `strconv.Atoi(s)`: an optional sign followed by at least one decimal
      digit, whose value fits in a 64-bit `int`; anything else is an error. */
  function Atoi(s: string): Option<int>
  {
    var negative := |s| > 0 && s[0] == '-';
    var digits := if |s| > 0 && (s[0] == '+' || s[0] == '-') then s[1..] else s;
    if |digits| == 0 || !AllDigits(digits) then None
    else
      var v: int := if negative then -(DigitsValue(digits) as int) else DigitsValue(digits);
      if MinInt64 <= v <= MaxInt64 then Some(v) else None
  }

  /** The shortest decimal form of a natural number. */
  function NatText(n: nat): (s: string)
    ensures |s| >= 1 && AllDigits(s) && DigitsValue(s) == n
  {
    var last := ['0' + (n % 10) as char];
    if n < 10 then last
    else
      var init := NatText(n / 10);
      assert (init + last)[..|init|] == init;
      init + last
  }

  /** `strconv.Itoa(n)` (also what `%d` prints). */
  function Itoa(n: int): string
  {
    if n < 0 then "-" + NatText(-n) else NatText(n)
  }

  /** `Atoi` reads back what `Itoa` writes, for every 64-bit integer. */
  lemma AtoiItoa(n: int)
    requires MinInt64 <= n <= MaxInt64
    ensures Atoi(Itoa(n)) == Some(n)
  {
    if n < 0 {
      assert Itoa(n)[1..] == NatText(-n);
    } else {
      assert IsDigit(Itoa(n)[0]);
    }
  }
}
