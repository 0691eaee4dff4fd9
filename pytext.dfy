/** The few pieces of Python's string semantics the gateway relies on:
    `startswith`/`endswith`, slicing with a negative stop, substring tests,
    and `repr`, which `str(KeyError(msg))` applies to its message. */
module PyText {

  predicate StartsWith(s: string, prefix: string) {
    |prefix| <= |s| && s[..|prefix|] == prefix
  }

  predicate EndsWith(s: string, suffix: string) {
    |suffix| <= |s| && s[|s| - |suffix|..] == suffix
  }

  /** Python's `sub in s` on strings. */
  ghost predicate Contains(s: string, sub: string) {
    exists i :: 0 <= i <= |s| - |sub| && OccursAt(s, sub, i)
  }

  predicate OccursAt(s: string, sub: string, i: int) {
    0 <= i <= |s| - |sub| && s[i..i + |sub|] == sub
  }

  /** How `s[start:stop]` turns an index into a position: a negative index
      counts from the end, and the result is clamped to `0..n`. */
  function SliceIndex(i: int, n: nat): (k: nat)
    ensures k <= n
    ensures 0 <= i <= n ==> k == i
    ensures -(n as int) <= i < 0 ==> k as int == n as int + i
    ensures i > n ==> k == n
    ensures i < -(n as int) ==> k == 0
  {
    if i < 0 then (if i + n < 0 then 0 else i + n)
    else if i > n then n
    else i
  }

  /** Python's `s[start:stop]`: empty whenever the start position is not
      before the stop position. With a start from the front and a stop
      counted from the end, as in `path[len(prefix):-len(suffix)]`, it drops
      `start` characters at the front and `-stop` at the back, or is empty
      when those overlap. */
  function Slice(s: string, start: int, stop: int): (r: string)
    ensures SliceIndex(start, |s|) >= SliceIndex(stop, |s|) ==> r == ""
    ensures SliceIndex(start, |s|) < SliceIndex(stop, |s|) ==>
              r == s[SliceIndex(start, |s|)..SliceIndex(stop, |s|)]
    ensures |r| <= |s|
    ensures 0 <= start <= stop <= |s| ==> r == s[start..stop]
    ensures 0 <= start && stop < 0 ==>
              r == (if start - stop < |s| then s[start..|s| + stop] else "")
  {
    var i, j := SliceIndex(start, |s|), SliceIndex(stop, |s|);
    if i < j then s[i..j] else ""
  }

  /** `str.isprintable` on a single character. Exact for U+0000..U+00FF;
      every character above U+00FF is taken as printable. */
  predicate Printable(c: char) {
    var k := c as int;
    !(k < 0x20 || (0x7f <= k <= 0xa0) || k == 0xad)
  }

  function HexDigit(d: nat): char
    requires d < 16
  {
    "0123456789abcdef"[d]
  }

  /** The quote `repr` chooses: double quotes only when the text holds a
      single quote and no double quote. */
  function QuoteFor(s: string): char {
    if '\'' in s && '"' !in s then '"' else '\''
  }

  /** How `repr` writes one character between quotes `q`. */
  function EscapeChar(c: char, q: char): (r: string)
    ensures |r| >= 1
    ensures r == [c] <==> c != q && c != '\\' && Printable(c)
  {
    if c == q || c == '\\' then ['\\', c]
    else if c == '\t' then "\\t"
    else if c == '\n' then "\\n"
    else if c == '\r' then "\\r"
    else if !Printable(c) then ['\\', 'x', HexDigit(c as int / 16), HexDigit(c as int % 16)]
    else [c]
  }

  function Escape(s: string, q: char): (r: string)
    ensures |r| >= |s|
  {
    if s == [] then [] else EscapeChar(s[0], q) + Escape(s[1..], q)
  }

  /** Python's `repr` of a string, which is also `str(KeyError(s))`. */
  function Repr(s: string): (r: string)
    ensures |r| >= |s| + 2 && r[0] == QuoteFor(s) && r[|r| - 1] == QuoteFor(s)
    ensures r[0] == '\'' || r[0] == '"'
  {
    [QuoteFor(s)] + Escape(s, QuoteFor(s)) + [QuoteFor(s)]
  }

  lemma {:induction false} EscapeAppend(a: string, b: string, q: char)
    ensures Escape(a + b, q) == Escape(a, q) + Escape(b, q)
  {
    if a != [] {
      assert (a + b)[1..] == a[1..] + b;
      EscapeAppend(a[1..], b, q);
    } else {
      assert a + b == b;
    }
  }

  /** Characters that `repr` leaves alone come out unchanged. */
  lemma {:induction false} EscapePlain(s: string, q: char)
    requires forall i :: 0 <= i < |s| ==> s[i] != q && s[i] != '\\' && Printable(s[i])
    ensures Escape(s, q) == s
  {
    if s != [] {
      EscapePlain(s[1..], q);
    }
  }

  /** `repr` only adds quotes around text that holds no backslash, no
      unprintable character and not both kinds of quote. */
  lemma ReprOfPlainText(s: string)
    requires forall i :: 0 <= i < |s| ==> s[i] != '\\' && Printable(s[i])
    requires !('\'' in s && '"' in s)
    ensures Repr(s) == [QuoteFor(s)] + s + [QuoteFor(s)]
    ensures Contains(Repr(s), s)
  {
    EscapePlain(s, QuoteFor(s));
    assert OccursAt(Repr(s), s, 1);
  }

  /** A text contains every beginning of each text it contains. */
  lemma ContainsBeginning(s: string, sub: string, k: nat)
    requires Contains(s, sub) && k <= |sub|
    ensures Contains(s, sub[..k])
  {
    var i :| 0 <= i <= |s| - |sub| && OccursAt(s, sub, i);
    assert s[i..i + k] == s[i..i + |sub|][..k];
    assert OccursAt(s, sub[..k], i);
  }

  /** A plain prefix survives `repr` verbatim, right after the opening quote,
      whatever follows it. */
  lemma ReprKeepsPlainPrefix(prefix: string, rest: string)
    requires forall i :: 0 <= i < |prefix| ==>
               prefix[i] != '\\' && prefix[i] != '\'' && prefix[i] != '"' && Printable(prefix[i])
    ensures Repr(prefix + rest)[1..1 + |prefix|] == prefix
    ensures Contains(Repr(prefix + rest), prefix)
  {
    var s := prefix + rest;
    var q := QuoteFor(s);
    var tail := Escape(rest, q);
    EscapeAppend(prefix, rest, q);
    EscapePlain(prefix, q);
    assert Escape(s, q) == prefix + tail;
    var r := [q] + (prefix + tail) + [q];
    assert Repr(s) == r;
    assert r[1..1 + |prefix|] == prefix;
    assert OccursAt(Repr(s), prefix, 1);
  }
}
