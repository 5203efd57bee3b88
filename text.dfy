/**
 * The pieces of the C++ standard library that the gateway's logic leans on,
 * written out so that their edge cases are part of the model:
 * `std::to_string` of a non-negative number, `std::stoi`,
 * `std::string::find` of one character, the item sequence that
 * `std::getline(stream, item, delim)` produces, and the
 * `find_first_not_of` / `find_last_not_of` trimming idiom.
 */
module Text {

  datatype Option<T> = None | Some(value: T)

  /** Largest and smallest value of a 32-bit `int`. */
  const INT_MAX := 0x7FFF_FFFF
  const INT_MIN := -0x8000_0000

  // ---------------------------------------------------------------------------
  // Searching and prefixes
  // ---------------------------------------------------------------------------

  /** `s.find(c)`: the index of the first occurrence of `c`, or None for npos. */
  function IndexOf(s: string, c: char): (r: Option<nat>)
    ensures r.None? <==> c !in s
    ensures r.Some? ==> r.value < |s| && s[r.value] == c && c !in s[..r.value]
  {
    if s == [] then None
    else if s[0] == c then Some(0)
    else match IndexOf(s[1..], c)
      case None => None
      case Some(i) => (assert s[1..][..i] == s[1..i + 1]; Some(i + 1))
  }

  predicate StartsWith(s: string, prefix: string)
  {
    |prefix| <= |s| && s[..|prefix|] == prefix
  }

  // ---------------------------------------------------------------------------
  // Decimal text
  // ---------------------------------------------------------------------------

  predicate IsDigit(c: char) { '0' <= c <= '9' }

  predicate AllDigits(s: string) { forall i :: 0 <= i < |s| ==> IsDigit(s[i]) }

  function DigitChar(d: nat): (c: char)
    requires d < 10
    ensures IsDigit(c) && (c as int) - ('0' as int) == d
  {
    "0123456789"[d]
  }

  /** The value of a non-empty run of decimal digits, most significant first. */
  function DigitsValue(s: string): nat
    requires AllDigits(s)
  {
    if s == [] then 0
    else DigitsValue(s[..|s| - 1]) * 10 + ((s[|s| - 1] as int) - ('0' as int))
  }

  /** `std::to_string(n)` for a non-negative `n`: no sign, no leading zero. */
  function NatToString(n: nat): (s: string)
    ensures 1 <= |s| && AllDigits(s)
    ensures |s| > 1 ==> s[0] != '0'
  {
    if n < 10 then [DigitChar(n)]
    else NatToString(n / 10) + [DigitChar(n % 10)]
  }

  /** The decimal text reads back as the number it was printed from. */
  lemma {:induction false} NatToStringRoundTrip(n: nat)
    ensures DigitsValue(NatToString(n)) == n
  {
    if n >= 10 {
      var s := NatToString(n);
      assert s[..|s| - 1] == NatToString(n / 10);
      NatToStringRoundTrip(n / 10);
    }
  }

  /** Different numbers print differently. */
  lemma NatToStringInjective(m: nat, n: nat)
    requires NatToString(m) == NatToString(n)
    ensures m == n
  {
    NatToStringRoundTrip(m);
    NatToStringRoundTrip(n);
  }

  /** The white-space characters `strtol` (and so `std::stoi`) skips. */
  predicate IsSpace(c: char)
  {
    c == ' ' || c == '\t' || c == '\n' || c == '\r' || c == '\U{B}' || c == '\U{C}'
  }

  function SkipSpaces(s: string): (r: string)
    ensures |r| <= |s| && r == s[|s| - |r|..]
    ensures r == [] || !IsSpace(r[0])
  {
    if s != [] && IsSpace(s[0]) then SkipSpaces(s[1..]) else s
  }

  /** The longest prefix of `s` made of decimal digits. */
  function LeadingDigits(s: string): (r: string)
    ensures |r| <= |s| && r == s[..|r|] && AllDigits(r)
    ensures |r| < |s| ==> !IsDigit(s[|r|])
  {
    if s != [] && IsDigit(s[0]) then [s[0]] + LeadingDigits(s[1..]) else []
  }

  datatype StoiResult = Parsed(value: int) | InvalidArgument | OutOfRange

  /**
   * `std::stoi(s)` in base 10: leading white space is skipped, one optional
   * sign is taken, then the longest run of digits; whatever follows it is
   * ignored. No digit at all raises `std::invalid_argument`; a value outside
   * the 32-bit range raises `std::out_of_range`.
   */
  function Stoi(s: string): (r: StoiResult)
    ensures r.Parsed? ==> INT_MIN <= r.value <= INT_MAX
  {
    var t := SkipSpaces(s);
    var negative := t != [] && t[0] == '-';
    var body := if t != [] && (t[0] == '-' || t[0] == '+') then t[1..] else t;
    var digits := LeadingDigits(body);
    if digits == [] then InvalidArgument
    else
      var magnitude: int := DigitsValue(digits);
      var v := if negative then 0 - magnitude else magnitude;
      if v < INT_MIN || INT_MAX < v then OutOfRange else Parsed(v)
  }

  lemma {:induction false} LeadingDigitsOfDigits(s: string)
    requires AllDigits(s)
    ensures LeadingDigits(s) == s
  {
    if s != [] {
      LeadingDigitsOfDigits(s[1..]);
    }
  }

  /** `std::stoi(std::to_string(n)) == n` for every `n` an `int` can hold. */
  lemma StoiOfNatToString(n: nat)
    requires n <= INT_MAX
    ensures Stoi(NatToString(n)) == Parsed(n)
  {
    var s := NatToString(n);
    assert SkipSpaces(s) == s by {
      assert !IsSpace(s[0]);
    }
    LeadingDigitsOfDigits(s);
    NatToStringRoundTrip(n);
  }

  // ---------------------------------------------------------------------------
  // Words, as `stream >> word` reads them
  // ---------------------------------------------------------------------------

  predicate NoSpace(s: string) { forall i :: 0 <= i < |s| ==> !IsSpace(s[i]) }

  /** The longest prefix of `s` without white space. */
  function LeadingWord(s: string): (r: string)
    ensures |r| <= |s| && r == s[..|r|] && NoSpace(r)
    ensures |r| < |s| ==> IsSpace(s[|r|])
  {
    if s != [] && !IsSpace(s[0]) then [s[0]] + LeadingWord(s[1..]) else []
  }

  /**
   * One `stream >> word`: white space is skipped, then a maximal run of
   * other characters is the word; what follows stays in the stream. When
   * only white space is left the word stays empty.
   */
  function NextWord(s: string): (r: (string, string))
    ensures NoSpace(r.0) && |r.1| <= |s|
    ensures r.0 == [] <==> forall i :: 0 <= i < |s| ==> IsSpace(s[i])
  {
    var t := SkipSpaces(s);
    var w := LeadingWord(t);
    assert w == [] ==> t == [];
    SkipSpacesSkipsOnlySpaces(s);
    (w, t[|w|..])
  }

  lemma {:induction false} SkipSpacesSkipsOnlySpaces(s: string)
    ensures forall i :: 0 <= i < |s| - |SkipSpaces(s)| ==> IsSpace(s[i])
    decreases |s|
  {
    if s != [] && IsSpace(s[0]) {
      SkipSpacesSkipsOnlySpaces(s[1..]);
      assert forall i :: 1 <= i < |s| - |SkipSpaces(s)| ==> s[i] == s[1..][i - 1];
    }
  }

  lemma {:induction false} LeadingWordOfWord(w: string, rest: string)
    requires NoSpace(w) && (rest == [] || IsSpace(rest[0]))
    ensures LeadingWord(w + rest) == w
  {
    if w != [] {
      assert (w + rest)[1..] == w[1..] + rest;
      LeadingWordOfWord(w[1..], rest);
    }
  }

  /** The first two words of a command line; a missing word reads as empty. */
  function TwoWords(s: string): (string, string)
  {
    var (first, rest) := NextWord(s);
    (first, NextWord(rest).0)
  }

  /** A word followed by white space (or nothing) is read whole, and the rest stays in the stream. */
  lemma NextWordOfWord(w: string, rest: string)
    requires w != [] && NoSpace(w) && (rest == [] || IsSpace(rest[0]))
    ensures NextWord(w + rest) == (w, rest)
  {
    var s := w + rest;
    assert !IsSpace(s[0]);
    assert SkipSpaces(s) == s;
    LeadingWordOfWord(w, rest);
    assert s[|w|..] == rest;
  }

  /** One space before a word is skipped. */
  lemma NextWordAfterSpace(w: string)
    requires w != [] && NoSpace(w)
    ensures NextWord(" " + w).0 == w
  {
    assert (" " + w)[1..] == w;
    assert SkipSpaces(w) == w;
    assert SkipSpaces(" " + w) == w;
    LeadingWordOfWord(w, []);
    assert w + [] == w;
  }

  /** A command written as two words separated by a space reads back as those two words. */
  lemma TwoWordsOfCommand(first: string, second: string)
    requires first != [] && second != [] && NoSpace(first) && NoSpace(second)
    ensures TwoWords(first + " " + second) == (first, second)
  {
    assert first + " " + second == first + (" " + second);
    NextWordOfWord(first, " " + second);
    NextWordAfterSpace(second);
  }

  /** A one-word command reads back as that word and an empty second word. */
  lemma TwoWordsOfSingleWord(first: string)
    requires first != [] && NoSpace(first)
    ensures TwoWords(first) == (first, [])
  {
    assert SkipSpaces(first) == first;
    LeadingWordOfWord(first, []);
    assert first + [] == first;
  }

  // ---------------------------------------------------------------------------
  // Splitting at a delimiter
  // ---------------------------------------------------------------------------

  /** All pieces between occurrences of `d`, empty pieces included. */
  function Pieces(s: string, d: char): (r: seq<string>)
    ensures |r| >= 1
    ensures forall i :: 0 <= i < |r| ==> d !in r[i]
    decreases |s|
  {
    match IndexOf(s, d)
    case None => [s]
    case Some(i) => [s[..i]] + Pieces(s[i + 1..], d)
  }

  /** Joins pieces with the delimiter between them. */
  function Join(pieces: seq<string>, d: char): string
    requires |pieces| >= 1
  {
    if |pieces| == 1 then pieces[0] else pieces[0] + [d] + Join(pieces[1..], d)
  }

  /** Splitting and joining again gives back the text. */
  lemma {:induction false} JoinPieces(s: string, d: char)
    ensures Join(Pieces(s, d), d) == s
    decreases |s|
  {
    match IndexOf(s, d)
    case None =>
    case Some(i) =>
      var rest := Pieces(s[i + 1..], d);
      assert Pieces(s, d) == [s[..i]] + rest;
      assert ([s[..i]] + rest)[1..] == rest;
      JoinPieces(s[i + 1..], d);
      assert s == s[..i] + [d] + s[i + 1..];
  }

  /** Joining pieces free of the delimiter and splitting again gives back the pieces. */
  lemma {:induction false} PiecesOfJoin(pieces: seq<string>, d: char)
    requires |pieces| >= 1
    requires forall i :: 0 <= i < |pieces| ==> d !in pieces[i]
    ensures Pieces(Join(pieces, d), d) == pieces
    decreases |pieces|
  {
    if |pieces| > 1 {
      var s := Join(pieces, d);
      var rest := Join(pieces[1..], d);
      assert s == pieces[0] + [d] + rest;
      var k := |pieces[0]|;
      assert s[k] == d && s[..k] == pieces[0];
      assert IndexOf(s, d) == Some(k);
      assert s[k + 1..] == rest;
      PiecesOfJoin(pieces[1..], d);
    }
  }

  /**
   * The items `while (std::getline(stream, item, d))` yields from `s`: the
   * pieces between delimiters, except that a final empty piece is never
   * produced (so the empty text yields no item and "a," yields only "a").
   */
  function GetlineItems(s: string, d: char): (r: seq<string>)
    ensures forall i :: 0 <= i < |r| ==> d !in r[i]
    ensures r == [] <==> s == []
  {
    var p := Pieces(s, d);
    SinglePieceOfEmpty(s, d);
    if p[|p| - 1] == [] then p[..|p| - 1] else p
  }

  /** Only the empty text splits into a single empty piece. */
  lemma SinglePieceOfEmpty(s: string, d: char)
    ensures s == [] <==> Pieces(s, d) == [[]]
  {
    JoinPieces(s, d);
  }

  // ---------------------------------------------------------------------------
  // Trimming
  // ---------------------------------------------------------------------------

  /** `s.erase(0, s.find_first_not_of(chars))`. */
  function TrimLeft(s: string, chars: set<char>): (r: string)
    ensures |r| <= |s| && r == s[|s| - |r|..]
    ensures forall k :: 0 <= k < |s| - |r| ==> s[k] in chars
    ensures r == [] || r[0] !in chars
  {
    if s != [] && s[0] in chars then TrimLeft(s[1..], chars) else s
  }

  /** `s.erase(s.find_last_not_of(chars) + 1)`. */
  function TrimRight(s: string, chars: set<char>): (r: string)
    ensures |r| <= |s| && r == s[..|r|]
    ensures forall k :: |r| <= k < |s| ==> s[k] in chars
    ensures r == [] || r[|r| - 1] !in chars
  {
    if s != [] && s[|s| - 1] in chars then TrimRight(s[..|s| - 1], chars) else s
  }

  /** Both erasures, first the leading run and then the trailing one. */
  function Trim(s: string, chars: set<char>): string
  {
    TrimRight(TrimLeft(s, chars), chars)
  }

  /** `r` sits at offset `i` of `s`, and every character of `s` around it is one of `chars`. */
  predicate MiddleAt(s: string, r: string, i: nat, chars: set<char>)
  {
    i + |r| <= |s| && r == s[i..i + |r|]
    && (forall k :: 0 <= k < i ==> s[k] in chars)
    && (forall k :: i + |r| <= k < |s| ==> s[k] in chars)
  }

  /** What trimming leaves: a middle slice of the text with no trimmed character at either end. */
  lemma TrimIsMiddle(s: string, chars: set<char>)
    ensures exists i :: MiddleAt(s, Trim(s, chars), i, chars)
    ensures var r := Trim(s, chars); r == [] || (r[0] !in chars && r[|r| - 1] !in chars)
  {
    var l := TrimLeft(s, chars);
    var r := TrimRight(l, chars);
    var i: nat := |s| - |l|;
    assert r == s[i..i + |r|] by {
      assert l == s[i..];
      assert r == l[..|r|];
    }
    forall k | i + |r| <= k < |s|
      ensures s[k] in chars
    {
      assert s[k] == l[k - i];
    }
    assert MiddleAt(s, r, i, chars);
    assert r != [] ==> r[0] == l[0];
    assert Trim(s, chars) == r;
  }

  /** Text that neither starts nor ends with one of `chars` is left as it is. */
  lemma TrimOfTrimmed(s: string, chars: set<char>)
    requires s == [] || (s[0] !in chars && s[|s| - 1] !in chars)
    ensures Trim(s, chars) == s
  {
  }

  /** Every character of `p` is one of `chars`. */
  predicate AllIn(p: string, chars: set<char>)
  {
    forall k :: 0 <= k < |p| ==> p[k] in chars
  }

  lemma {:induction false} TrimLeftOfPadded(p: string, x: string, chars: set<char>)
    requires AllIn(p, chars)
    ensures TrimLeft(p + x, chars) == TrimLeft(x, chars)
    decreases |p|
  {
    if p != [] {
      var s := p + x;
      assert s[0] == p[0] && s[0] in chars;
      assert TrimLeft(s, chars) == TrimLeft(s[1..], chars);
      assert s[1..] == p[1..] + x;
      TrimLeftOfPadded(p[1..], x, chars);
    } else {
      assert p + x == x;
    }
  }

  lemma {:induction false} TrimRightOfPadded(x: string, q: string, chars: set<char>)
    requires AllIn(q, chars)
    ensures TrimRight(x + q, chars) == TrimRight(x, chars)
    decreases |q|
  {
    if q != [] {
      var s := x + q;
      var n := |q| - 1;
      assert s[|s| - 1] == q[n] && q[n] in chars;
      assert s[..|s| - 1] == x + q[..n];
      TrimRightOfPadded(x, q[..n], chars);
    } else {
      assert x + q == x;
    }
  }

  /** Text that does not start or end with one of `chars` comes out of any padding of them. */
  lemma TrimOfPadded(p: string, x: string, q: string, chars: set<char>)
    requires AllIn(p, chars) && AllIn(q, chars)
    requires x == [] || (x[0] !in chars && x[|x| - 1] !in chars)
    ensures Trim(p + x + q, chars) == x
  {
    assert p + x + q == p + (x + q);
    TrimLeftOfPadded(p, x + q, chars);
    if x == [] {
      assert x + q == [] + q;
      TrimLeftOfPadded(q, [], chars);
      assert q + [] == q;
    } else {
      assert TrimLeft(x + q, chars) == x + q;
      TrimRightOfPadded(x, q, chars);
      TrimOfTrimmed(x, chars);
    }
  }
}
