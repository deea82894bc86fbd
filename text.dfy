// String operations of Python's str type used by the engine and chain code, on
// strings as sequences of characters.
module Text {

  predicate IsDigit(ch: char) { '0' <= ch <= '9' }

  /** Python's str(n) for a natural number. */
  function Decimal(n: nat): (s: string)
    ensures |s| >= 1 && forall k :: 0 <= k < |s| ==> IsDigit(s[k])
    ensures n < 10 <==> |s| == 1
    decreases n
  {
    var d := [('0' as int + n % 10) as char];
    if n < 10 then d else Decimal(n / 10) + d
  }

  /** The value of a string of decimal digits (int() of it). */
  function DecimalValue(s: string): nat
    requires forall k :: 0 <= k < |s| ==> IsDigit(s[k])
  {
    if s == [] then 0 else DecimalValue(s[..|s| - 1]) * 10 + DigitValue(s[|s| - 1])
  }

  function DigitValue(ch: char): (d: nat)
    requires IsDigit(ch)
    ensures d < 10
  {
    ch as int - '0' as int
  }

  /** int(str(n)) == n: the decimal form names the number it was made from. */
  lemma {:induction false} DecimalRoundTrip(n: nat)
    ensures DecimalValue(Decimal(n)) == n
    decreases n
  {
    var s := Decimal(n);
    if n >= 10 {
      DecimalRoundTrip(n / 10);
      assert s[..|s| - 1] == Decimal(n / 10);
    }
  }

  /** Different numbers are written differently. */
  lemma DecimalInjective(m: nat, n: nat)
    ensures Decimal(m) == Decimal(n) ==> m == n
  {
    DecimalRoundTrip(m);
    DecimalRoundTrip(n);
  }

  /** "%02d" % n: at least two digits, zero-padded. */
  function TwoDigits(n: nat): (s: string)
    ensures |s| >= 2 && forall k :: 0 <= k < |s| ==> IsDigit(s[k])
    ensures DecimalValue(s) == n
  {
    DecimalRoundTrip(n);
    if n < 10 then
      var s := "0" + Decimal(n);
      assert s[..|s| - 1] == "0";
      assert s[..|s| - 1][..0] == [];
      s
    else Decimal(n)
  }

  /** s.replace(a, b) for single characters. */
  function Replace(s: string, a: char, b: char): (r: string)
    ensures |r| == |s|
    ensures forall k :: 0 <= k < |s| ==> r[k] == if s[k] == a then b else s[k]
  {
    if s == [] then [] else [if s[0] == a then b else s[0]] + Replace(s[1..], a, b)
  }

  /** The characters Python's str.strip() removes, those for which str.isspace() holds:
      tab to carriage return, the four separators U+1C to U+1F, space, next line,
      no-break space and the Unicode space separators. */
  predicate Whitespace(ch: char) {
    || '\t' <= ch <= '\r'
    || '\U{1C}' <= ch <= ' '
    || ch == '\U{85}' || ch == '\U{A0}' || ch == '\U{1680}'
    || '\U{2000}' <= ch <= '\U{200A}'
    || ch == '\U{2028}' || ch == '\U{2029}' || ch == '\U{202F}' || ch == '\U{205F}' || ch == '\U{3000}'
  }

  /** The number of whitespace characters s starts with. */
  function Leading(s: string): (n: nat)
    ensures n <= |s| && (n == |s| || !Whitespace(s[n]))
    ensures forall k :: 0 <= k < n ==> Whitespace(s[k])
  {
    if s != [] && Whitespace(s[0]) then 1 + Leading(s[1..]) else 0
  }

  /** s.rstrip() */
  function StripRight(s: string): (r: string)
    ensures |r| <= |s| && r == s[..|r|]
    ensures r == [] || !Whitespace(r[|r| - 1])
    ensures forall k :: |r| <= k < |s| ==> Whitespace(s[k])
  {
    if s != [] && Whitespace(s[|s| - 1]) then StripRight(s[..|s| - 1]) else s
  }

  /** s.strip(): s without its leading and trailing whitespace. */
  function Strip(s: string): (r: string)
    ensures r == [] || (!Whitespace(r[0]) && !Whitespace(r[|r| - 1]))
    ensures Leading(s) + |r| <= |s| && r == s[Leading(s)..Leading(s) + |r|]
    ensures forall k :: Leading(s) + |r| <= k < |s| ==> Whitespace(s[k])
  {
    var i := Leading(s);
    var r := StripRight(s[i..]);
    assert forall k :: i + |r| <= k < |s| ==> s[k] == s[i..][k - i];
    r
  }

  /** s.split(c): the pieces of s between occurrences of c. */
  function Split(s: string, c: char): (parts: seq<string>)
    ensures |parts| >= 1
    ensures forall p :: p in parts ==> c !in p
    ensures |parts| == 1 <==> c !in s
  {
    if s == [] then [""]
    else
      var rest := Split(s[1..], c);
      if s[0] == c then [""] + rest else [[s[0]] + rest[0]] + rest[1..]
  }

  /** c.join(parts) */
  function Join(parts: seq<string>, c: char): string
    requires |parts| >= 1
  {
    if |parts| == 1 then parts[0] else parts[0] + [c] + Join(parts[1..], c)
  }

  /** Splitting at c and joining with c gives back the string. */
  lemma {:induction false} JoinSplit(s: string, c: char)
    ensures Join(Split(s, c), c) == s
    decreases |s|
  {
    if s != [] {
      var rest := Split(s[1..], c);
      JoinSplit(s[1..], c);
      if s[0] == c {
        JoinEmptyHead(rest, c);
      } else {
        JoinCons(s[0], rest, c);
      }
      assert [s[0]] + s[1..] == s;
    }
  }

  /** Joining after an empty first piece starts with the separator. */
  lemma JoinEmptyHead(parts: seq<string>, c: char)
    requires |parts| >= 1
    ensures Join([""] + parts, c) == [c] + Join(parts, c)
  {
    assert ([""] + parts)[1..] == parts;
  }

  /** Joining after a character is put in front of the first piece. */
  lemma JoinCons(ch: char, parts: seq<string>, c: char)
    requires |parts| >= 1
    ensures Join([[ch] + parts[0]] + parts[1..], c) == [ch] + Join(parts, c)
  {
    var ps := [[ch] + parts[0]] + parts[1..];
    if |parts| > 1 {
      assert ps[1..] == parts[1..];
      var tail := Join(parts[1..], c);
      calc {
        Join(ps, c);
        ([ch] + parts[0]) + [c] + tail;
        [ch] + (parts[0] + [c] + tail);
      }
    }
  }

  /** Replacing a by b leaves no a (when b is not a), and every other character came
      from s. */
  lemma ReplaceChars(s: string, a: char, b: char, x: char)
    requires x in Replace(s, a, b) && x != b
    ensures x in s && x != a
  {
    var r := Replace(s, a, b);
    var k :| 0 <= k < |r| && r[k] == x;
    assert s[k] == x;
  }

  /** Stripping only removes characters. */
  lemma StripChars(s: string, x: char)
    requires x in Strip(s)
    ensures x in s
  {
    var r := Strip(s);
    var k :| 0 <= k < |r| && r[k] == x;
    assert s[Leading(s) + k] == x;
  }

  /** A string without c is one piece. */
  lemma {:induction false} SplitAbsent(s: string, c: char)
    requires c !in s
    ensures Split(s, c) == [s]
    decreases |s|
  {
    if s != [] {
      assert c !in s[1..] by {
        forall k | 0 <= k < |s[1..]| ensures s[1..][k] != c { assert s[1..][k] == s[k + 1]; }
      }
      SplitAbsent(s[1..], c);
      assert [s[0]] + s[1..] == s;
    }
  }
}
