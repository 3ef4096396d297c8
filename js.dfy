/**
 * The JavaScript string, number and value operations that the source relies on,
 * written out so that the parsers built on them can be reasoned about:
 * String.prototype.trim, split, join, includes, startsWith, replace,
 * toLowerCase, digit parsing and Math.round.
 */
module Js {

  // ---------------------------------------------------------------------------
  // Whitespace and trim
  // ---------------------------------------------------------------------------

  /** The characters String.prototype.trim removes (WhiteSpace and LineTerminator). */
  predicate IsWhitespace(c: char) {
    c == ' ' || c == '\t' || c == '\n' || c == '\r' || c == '\U{000B}' || c == '\U{000C}'
    || c == '\U{00A0}' || c == '\U{1680}' || ('\U{2000}' <= c <= '\U{200A}')
    || c == '\U{2028}' || c == '\U{2029}' || c == '\U{202F}' || c == '\U{205F}'
    || c == '\U{3000}' || c == '\U{FEFF}'
  }

  /** True when s neither starts nor ends with whitespace. */
  predicate Trimmed(s: string) {
    s == [] || (!IsWhitespace(s[0]) && !IsWhitespace(s[|s| - 1]))
  }

  /** s with its leading whitespace removed. */
  function TrimStart(s: string): (r: string)
    ensures |r| <= |s| && r == s[|s| - |r|..]
    ensures r == [] || !IsWhitespace(r[0])
    ensures forall i :: 0 <= i < |s| - |r| ==> IsWhitespace(s[i])
  {
    if s != [] && IsWhitespace(s[0]) then TrimStart(s[1..]) else s
  }

  /** s with its trailing whitespace removed. */
  function TrimEnd(s: string): (r: string)
    ensures |r| <= |s| && r == s[..|r|]
    ensures r == [] || !IsWhitespace(r[|r| - 1])
    ensures forall i :: |r| <= i < |s| ==> IsWhitespace(s[i])
  {
    if s != [] && IsWhitespace(s[|s| - 1]) then TrimEnd(s[..|s| - 1]) else s
  }

  /** String.prototype.trim */
  function Trim(s: string): (r: string)
    ensures Trimmed(r)
    ensures Trimmed(s) ==> r == s
  {
    TrimEnd(TrimStart(s))
  }

  /** Whitespace appended after a string that ends in a visible character is all that trim removes. */
  lemma TrimPadded(x: string, pad: string)
    requires Trimmed(x)
    requires forall i :: 0 <= i < |pad| ==> IsWhitespace(pad[i])
    ensures Trim(x + pad) == x
  {
    var s := x + pad;
    if x != [] {
      assert TrimStart(s) == s;
      var r := TrimEnd(s);
      assert !IsWhitespace(s[|x| - 1]);
      assert forall i :: |x| <= i < |s| ==> IsWhitespace(s[i]) by {
        forall i | |x| <= i < |s| ensures IsWhitespace(s[i]) {
          assert s[i] == pad[i - |x|];
        }
      }
      assert |r| == |x|;
      assert r == s[..|x|] == x;
    }
  }

  // ---------------------------------------------------------------------------
  // Searching
  // ---------------------------------------------------------------------------

  /** The first index of c in s. */
  function IndexOf(s: string, c: char): (k: nat)
    requires c in s
    ensures k < |s| && s[k] == c && c !in s[..k]
  {
    if s[0] == c then 0 else 1 + IndexOf(s[1..], c)
  }

  lemma IndexOfIs(s: string, c: char, k: nat)
    requires k < |s| && s[k] == c && c !in s[..k]
    ensures IndexOf(s, c) == k
  {
    var j := IndexOf(s, c);
  }

  /** String.prototype.startsWith */
  predicate StartsWith(s: string, prefix: string) {
    prefix <= s
  }

  /** String.prototype.includes */
  predicate Includes(s: string, sub: string)
    decreases |s|
  {
    sub <= s || (s != [] && Includes(s[1..], sub))
  }

  /** An occurrence of sub at a known position is found by includes. */
  lemma {:induction false} IncludesAt(s: string, sub: string, i: nat)
    requires i + |sub| <= |s| && s[i..i + |sub|] == sub
    ensures Includes(s, sub)
  {
    if i > 0 {
      assert s[1..][i - 1..i - 1 + |sub|] == s[i..i + |sub|];
      IncludesAt(s[1..], sub, i - 1);
    } else {
      assert sub <= s;
    }
  }

  lemma IncludesSelf(s: string)
    ensures Includes(s, s)
  {
    assert s <= s;
  }

  /** A string never includes one longer than itself. */
  lemma {:induction false} IncludesLonger(s: string, sub: string)
    requires |s| < |sub|
    ensures !Includes(s, sub)
    decreases |s|
  {
    if s != [] {
      IncludesLonger(s[1..], sub);
    }
  }

  // ---------------------------------------------------------------------------
  // Split, join, replace
  // ---------------------------------------------------------------------------

  /** String.prototype.split with a one-character separator: never empty, and no part holds the separator. */
  function Split(s: string, sep: char): (parts: seq<string>)
    ensures |parts| >= 1
    ensures forall i :: 0 <= i < |parts| ==> sep !in parts[i]
    decreases |s|
  {
    if sep !in s then [s]
    else
      var k := IndexOf(s, sep);
      [s[..k]] + Split(s[k + 1..], sep)
  }

  /** Array.prototype.join with a one-character separator. */
  function Join(parts: seq<string>, sep: char): string
    requires |parts| >= 1
  {
    if |parts| == 1 then parts[0] else parts[0] + [sep] + Join(parts[1..], sep)
  }

  /** Joining parts that do not contain the separator and splitting again gives the parts back. */
  lemma {:induction false} SplitJoin(parts: seq<string>, sep: char)
    requires |parts| >= 1
    requires forall i :: 0 <= i < |parts| ==> sep !in parts[i]
    ensures Split(Join(parts, sep), sep) == parts
  {
    if |parts| > 1 {
      var s := Join(parts, sep);
      var n := |parts[0]|;
      assert s == parts[0] + [sep] + Join(parts[1..], sep);
      assert s[..n] == parts[0];
      IndexOfIs(s, sep, n);
      assert s[n + 1..] == Join(parts[1..], sep);
      SplitJoin(parts[1..], sep);
    }
  }

  lemma {:induction false} JoinTrimmed(parts: seq<string>, sep: char)
    requires |parts| >= 1 && parts[0] != [] && !IsWhitespace(parts[0][0])
    requires parts[|parts| - 1] != [] && !IsWhitespace(parts[|parts| - 1][|parts[|parts| - 1]| - 1])
    ensures Trimmed(Join(parts, sep))
  {
    var s := Join(parts, sep);
    if |parts| > 1 {
      JoinTrimmedEnd(parts[1..], sep);
      assert s == parts[0] + [sep] + Join(parts[1..], sep);
    }
  }

  lemma {:induction false} JoinTrimmedEnd(parts: seq<string>, sep: char)
    requires |parts| >= 1
    requires parts[|parts| - 1] != [] && !IsWhitespace(parts[|parts| - 1][|parts[|parts| - 1]| - 1])
    ensures var s := Join(parts, sep); s != [] && s[|s| - 1] == parts[|parts| - 1][|parts[|parts| - 1]| - 1]
  {
    if |parts| > 1 {
      JoinTrimmedEnd(parts[1..], sep);
    }
  }

  /**
   * Lines printed one per line and followed by blank padding are read back by
   * trim().split('\n'), when the first line does not start and the last does not
   * end with whitespace.
   */
  lemma ReadLines(parts: seq<string>, pad: string)
    requires |parts| >= 1 && forall i :: 0 <= i < |parts| ==> '\n' !in parts[i]
    requires parts[0] != [] && !IsWhitespace(parts[0][0])
    requires parts[|parts| - 1] != [] && !IsWhitespace(parts[|parts| - 1][|parts[|parts| - 1]| - 1])
    requires forall i :: 0 <= i < |pad| ==> IsWhitespace(pad[i])
    ensures Split(Trim(Join(parts, '\n') + pad), '\n') == parts
  {
    JoinTrimmed(parts, '\n');
    TrimPadded(Join(parts, '\n'), pad);
    SplitJoin(parts, '\n');
  }

  /** s.split(sep).pop(): the longest suffix free of the separator, which is all of s when there is none. */
  function LastSegment(s: string, sep: char): (r: string)
    ensures sep !in r
    ensures |r| <= |s| && r == s[|s| - |r|..]
    ensures |r| < |s| ==> s[|s| - |r| - 1] == sep
  {
    if s == [] || s[|s| - 1] == sep then []
    else LastSegment(s[..|s| - 1], sep) + [s[|s| - 1]]
  }

  /** The one-character-pattern global replace, s.replace(/c/g, repl). */
  function ReplaceAll(s: string, c: char, repl: string): (r: string)
    ensures c !in repl ==> c !in r
  {
    if s == [] then [] else (if s[0] == c then repl else [s[0]]) + ReplaceAll(s[1..], c, repl)
  }

  /** Global replace distributes over concatenation: it acts on each character separately. */
  lemma {:induction false} ReplaceAllAppend(a: string, b: string, c: char, repl: string)
    ensures ReplaceAll(a + b, c, repl) == ReplaceAll(a, c, repl) + ReplaceAll(b, c, repl)
    decreases |a|
  {
    if a != [] {
      var head := if a[0] == c then repl else [a[0]];
      assert (a + b)[0] == a[0] && (a + b)[1..] == a[1..] + b;
      ReplaceAllAppend(a[1..], b, c, repl);
      var x, y := ReplaceAll(a[1..], c, repl), ReplaceAll(b, c, repl);
      assert ReplaceAll(a + b, c, repl) == head + (x + y);
      assert head + (x + y) == (head + x) + y;
    } else {
      assert a + b == b;
    }
  }

  /** A global replace of a character that does not occur changes nothing. */
  lemma {:induction false} ReplaceAllAbsent(s: string, c: char, repl: string)
    requires c !in s
    ensures ReplaceAll(s, c, repl) == s
  {
    if s != [] {
      ReplaceAllAbsent(s[1..], c, repl);
    }
  }

  /** A chain of global replaces applied left to right. */
  function Chain(pieces: seq<(char, string)>, s: string): string
    decreases |pieces|
  {
    if pieces == [] then s
    else Chain(pieces[1..], ReplaceAll(s, pieces[0].0, pieces[0].1))
  }

  lemma {:induction false} ChainAppend(pieces: seq<(char, string)>, a: string, b: string)
    ensures Chain(pieces, a + b) == Chain(pieces, a) + Chain(pieces, b)
    decreases |pieces|
  {
    if pieces != [] {
      ReplaceAllAppend(a, b, pieces[0].0, pieces[0].1);
      ChainAppend(pieces[1..], ReplaceAll(a, pieces[0].0, pieces[0].1), ReplaceAll(b, pieces[0].0, pieces[0].1));
    }
  }

  lemma {:induction false} ChainAbsent(pieces: seq<(char, string)>, s: string)
    requires forall i :: 0 <= i < |pieces| ==> pieces[i].0 !in s
    ensures Chain(pieces, s) == s
    decreases |pieces|
  {
    if pieces != [] {
      ReplaceAllAbsent(s, pieces[0].0, pieces[0].1);
      ChainAbsent(pieces[1..], s);
    }
  }

  /** The replacement of the first piece for c, or c itself. */
  function Lookup(pieces: seq<(char, string)>, c: char): string {
    if pieces == [] then [c]
    else if pieces[0].0 == c then pieces[0].1
    else Lookup(pieces[1..], c)
  }

  /** No replacement holds a character that a later piece replaces. */
  predicate Settled(pieces: seq<(char, string)>) {
    forall i, j :: 0 <= i < j < |pieces| ==> pieces[j].0 !in pieces[i].1
  }

  /** On one character, a settled chain acts as a lookup in its table. */
  lemma {:induction false} ChainLookup(pieces: seq<(char, string)>, c: char)
    requires Settled(pieces)
    ensures Chain(pieces, [c]) == Lookup(pieces, c)
    decreases |pieces|
  {
    if pieces != [] {
      var (d, r) := pieces[0];
      assert Settled(pieces[1..]) by {
        forall i, j | 0 <= i < j < |pieces[1..]| ensures pieces[1..][j].0 !in pieces[1..][i].1 {
          assert pieces[1..][j] == pieces[j + 1] && pieces[1..][i] == pieces[i + 1];
        }
      }
      if d == c {
        assert ReplaceAll([c], d, r) == r + ReplaceAll([], d, r);
        assert r + [] == r;
        forall i | 0 <= i < |pieces[1..]| ensures pieces[1..][i].0 !in r {
          assert pieces[1..][i] == pieces[i + 1];
        }
        ChainAbsent(pieces[1..], r);
      } else {
        assert ReplaceAll([c], d, r) == [c] + ReplaceAll([], d, r);
        assert [c] + [] == [c];
        ChainLookup(pieces[1..], c);
      }
    }
  }

  lemma {:induction false} LookupAt(pieces: seq<(char, string)>, k: nat, c: char)
    requires k <= |pieces| && (k < |pieces| ==> pieces[k].0 == c)
    requires forall i :: 0 <= i < k ==> pieces[i].0 != c
    ensures Lookup(pieces, c) == if k < |pieces| then pieces[k].1 else [c]
    decreases k
  {
    if k > 0 {
      LookupAt(pieces[1..], k - 1, c);
    }
  }

  /** s.replace(pattern, repl) with a string pattern: only the first occurrence is replaced. */
  function ReplaceFirst(s: string, pattern: string, repl: string): string
    decreases |s|
  {
    if pattern <= s then repl + s[|pattern|..]
    else if s == [] then []
    else [s[0]] + ReplaceFirst(s[1..], pattern, repl)
  }

  // ---------------------------------------------------------------------------
  // Case
  // ---------------------------------------------------------------------------

  function LowerChar(c: char): char {
    if 'A' <= c <= 'Z' then (c as int + 32) as char else c
  }

  /** String.prototype.toLowerCase, for the ASCII letters. */
  function ToLowerCase(s: string): (r: string)
    ensures |r| == |s|
    ensures forall i :: 0 <= i < |s| ==> r[i] == LowerChar(s[i])
  {
    seq(|s|, i requires 0 <= i < |s| => LowerChar(s[i]))
  }

  // ---------------------------------------------------------------------------
  // Decimal digits
  // ---------------------------------------------------------------------------

  predicate IsDigit(c: char) {
    '0' <= c <= '9'
  }

  predicate AllDigits(s: string) {
    forall i :: 0 <= i < |s| ==> IsDigit(s[i])
  }

  function DigitChar(d: nat): (c: char)
    requires d < 10
    ensures IsDigit(c)
  {
    (d + '0' as int) as char
  }

  /** The value of a string of decimal digits, as Number() and parseInt() read it. */
  function DigitsValue(ds: string): nat
    requires AllDigits(ds)
  {
    if ds == [] then 0 else DigitsValue(ds[..|ds| - 1]) * 10 + (ds[|ds| - 1] as int - '0' as int)
  }

  /** The decimal text of a natural number, as String(n) writes it. */
  function NatToString(n: nat): (s: string)
    ensures s != [] && AllDigits(s)
  {
    if n < 10 then [DigitChar(n)] else NatToString(n / 10) + [DigitChar(n % 10)]
  }

  /** The decimal text of an integer, with a leading '-' when negative. */
  function IntToString(i: int): string {
    if i < 0 then "-" + NatToString(-i) else NatToString(i)
  }

  /** Reading back the decimal text of n gives n. */
  lemma {:induction false} DigitsValueOfNatToString(n: nat)
    ensures DigitsValue(NatToString(n)) == n
  {
    var s := NatToString(n);
    if n >= 10 {
      DigitsValueOfNatToString(n / 10);
      assert s[..|s| - 1] == NatToString(n / 10);
    }
  }

  /** The length of the run of digits at the head of s. */
  function DigitRun(s: string): (k: nat)
    ensures k <= |s| && AllDigits(s[..k])
    ensures k < |s| ==> !IsDigit(s[k])
  {
    if s != [] && IsDigit(s[0]) then
      var k := 1 + DigitRun(s[1..]);
      assert forall i :: 1 <= i < k ==> s[..k][i] == s[1..][..k - 1][i - 1];
      k
    else 0
  }

  /** The digit run at the head of digits + rest is exactly digits when rest does not start with a digit. */
  lemma {:induction false} DigitRunOf(digits: string, rest: string)
    requires AllDigits(digits)
    requires rest == [] || !IsDigit(rest[0])
    ensures DigitRun(digits + rest) == |digits|
    decreases |digits|
  {
    if digits != [] {
      assert (digits + rest)[1..] == digits[1..] + rest;
      DigitRunOf(digits[1..], rest);
    } else {
      assert digits + rest == rest;
    }
  }

  // ---------------------------------------------------------------------------
  // Numbers
  // ---------------------------------------------------------------------------

  /** Math.round: the nearest integer, with halves rounded up. */
  function Round(v: real): (n: int)
    ensures n as real - 0.5 <= v < n as real + 0.5
  {
    (v + 0.5).Floor
  }

  /** Math.round of an integer is that integer. */
  lemma RoundOfInt(n: int)
    ensures Round(n as real) == n
  {
  }

  /** Math.round is monotone. */
  lemma RoundMonotone(u: real, v: real)
    requires u <= v
    ensures Round(u) <= Round(v)
  {
  }

  // ---------------------------------------------------------------------------
  // Array.prototype.filter
  // ---------------------------------------------------------------------------

  /** xs.filter(keep): the items keep accepts, in order. */
  function Filter<T>(xs: seq<T>, keep: T -> bool): (kept: seq<T>)
    ensures |kept| <= |xs|
    ensures forall i :: 0 <= i < |kept| ==> keep(kept[i]) && kept[i] in xs
    ensures forall i :: 0 <= i < |xs| && keep(xs[i]) ==> xs[i] in kept
  {
    if xs == [] then []
    else
      var rest := Filter(xs[1..], keep);
      assert forall i :: 1 <= i < |xs| ==> xs[i] == xs[1..][i - 1];
      (if keep(xs[0]) then [xs[0]] else []) + rest
  }

  /** Concatenation is associative; proofs call this rather than re-derive it element by element. */
  lemma AppendAssoc<T>(a: seq<T>, b: seq<T>, c: seq<T>)
    ensures (a + b) + c == a + (b + c)
  {
  }

  /**
   * filter keeps order and multiplicity: one item is kept exactly when keep
   * accepts it, and filtering a concatenation filters each part in turn.
   */
  lemma {:induction false} FilterAppend<T>(a: seq<T>, b: seq<T>, keep: T -> bool)
    ensures Filter(a + b, keep) == Filter(a, keep) + Filter(b, keep)
    ensures |a| == 1 ==> Filter(a, keep) == (if keep(a[0]) then a else [])
  {
    if a == [] {
      assert a + b == b;
    } else {
      var head := if keep(a[0]) then [a[0]] else [];
      assert (a + b)[0] == a[0] && (a + b)[1..] == a[1..] + b;
      assert Filter(a + b, keep) == head + Filter(a[1..] + b, keep);
      FilterAppend(a[1..], b, keep);
      assert Filter(a, keep) == head + Filter(a[1..], keep);
      AppendAssoc(head, Filter(a[1..], keep), Filter(b, keep));
    }
  }

  /** filter returns its input when keep accepts every item. */
  lemma {:induction false} FilterKeepsAll<T>(xs: seq<T>, keep: T -> bool)
    requires forall i :: 0 <= i < |xs| ==> keep(xs[i])
    ensures Filter(xs, keep) == xs
  {
    if xs != [] {
      FilterKeepsAll(xs[1..], keep);
    }
  }

  // ---------------------------------------------------------------------------
  // Request-body values
  // ---------------------------------------------------------------------------

  /** A JSON value as it arrives in a request body; Undefined stands for an absent property. */
  datatype Value = Undefined | Null | Bool(b: bool) | Num(n: int) | Str(s: string)

  /** JavaScript truthiness. */
  predicate Truthy(v: Value) {
    match v
    case Undefined => false
    case Null => false
    case Bool(b) => b
    case Num(n) => n != 0
    case Str(s) => s != []
  }

  /** The text a template literal `${v}` produces. */
  function Show(v: Value): string {
    match v
    case Undefined => "undefined"
    case Null => "null"
    case Bool(b) => if b then "true" else "false"
    case Num(n) => IntToString(n)
    case Str(s) => s
  }
}
