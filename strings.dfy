/**
 * The Python string builtins the research pipeline leans on: `str.split` on one
 * character, `str.join`, `str.strip`, `str(int)` and `repr(str)` (as it appears
 * inside `str(list)`). Strings are sequences of Unicode scalar values, and `len`
 * is the sequence length, as in Python.
 */
module Strings {
  import opened Wrappers

  predicate StartsWith(s: string, prefix: string) {
    |prefix| <= |s| && s[..|prefix|] == prefix
  }

  predicate EndsWith(s: string, suffix: string) {
    |suffix| <= |s| && s[|s| - |suffix|..] == suffix
  }

  /** `infix` occurs in `s` starting at index `i`. */
  predicate OccursAt(s: string, infix: string, i: int) {
    0 <= i <= |s| - |infix| && s[i..i + |infix|] == infix
  }

  /** `infix in s` */
  ghost predicate Contains(s: string, infix: string) {
    exists i :: OccursAt(s, infix, i)
  }

  /** `s.find(c)`, with `|s|` standing for "not found". */
  function IndexOf(s: string, c: char): (i: nat)
    ensures i <= |s|
    ensures i < |s| ==> s[i] == c
    ensures forall j :: 0 <= j < i ==> s[j] != c
  {
    if |s| == 0 || s[0] == c then 0 else 1 + IndexOf(s[1..], c)
  }

  // ---------------------------------------------------------------------------
  // sep.join(xs)

  function Join(sep: string, xs: seq<string>): string
  {
    if |xs| == 0 then ""
    else if |xs| == 1 then xs[0]
    else xs[0] + sep + Join(sep, xs[1..])
  }

  /** Sum of the lengths of the pieces. */
  function TotalLength(xs: seq<string>): nat
  {
    if |xs| == 0 then 0 else TotalLength(xs[..|xs| - 1]) + |xs[|xs| - 1]|
  }

  /** Appending a piece appends the separator and the piece. */
  lemma {:induction false} JoinSnoc(sep: string, xs: seq<string>, x: string)
    requires |xs| >= 1
    ensures Join(sep, xs + [x]) == Join(sep, xs) + sep + x
  {
    if |xs| == 1 {
      assert xs + [x] == [xs[0], x];
      assert [xs[0], x][1..] == [x];
    } else {
      assert (xs + [x])[1..] == xs[1..] + [x];
      JoinSnoc(sep, xs[1..], x);
    }
  }

  /** Prefixing the first piece prefixes the joined text. */
  lemma JoinPrependFirst(sep: string, p: string, xs: seq<string>)
    requires |xs| >= 1
    ensures Join(sep, [p + xs[0]] + xs[1..]) == p + Join(sep, xs)
  {
    if |xs| > 1 {
      assert ([p + xs[0]] + xs[1..])[1..] == xs[1..];
    }
  }

  /** A character absent from the separator and from every piece is absent from the join. */
  lemma {:induction false} JoinAvoids(sep: string, xs: seq<string>, c: char)
    requires c !in sep
    requires forall i :: 0 <= i < |xs| ==> c !in xs[i]
    ensures c !in Join(sep, xs)
  {
    if |xs| > 1 {
      JoinAvoids(sep, xs[1..], c);
    }
  }

  /** Joining a concatenation of two non-empty lists puts one separator at the seam. */
  lemma {:induction false} JoinAppend(sep: string, xs: seq<string>, ys: seq<string>)
    requires |xs| >= 1 && |ys| >= 1
    ensures Join(sep, xs + ys) == Join(sep, xs) + sep + Join(sep, ys)
  {
    if |xs| == 1 {
      assert ([xs[0]] + ys)[1..] == ys;
      assert xs + ys == [xs[0]] + ys;
    } else {
      JoinAppend(sep, xs[1..], ys);
      assert (xs + ys)[1..] == xs[1..] + ys;
    }
  }

  /** A joined text is as long as its pieces plus one separator between each pair. */
  lemma {:induction false} JoinLength(sep: string, xs: seq<string>)
    requires |xs| >= 1
    ensures |Join(sep, xs)| == TotalLength(xs) + |sep| * (|xs| - 1)
  {
    if |xs| > 1 {
      var init := xs[..|xs| - 1];
      assert xs == init + [xs[|xs| - 1]];
      JoinLength(sep, init);
      JoinSnoc(sep, init, xs[|xs| - 1]);
      assert TotalLength(xs) == TotalLength(init) + |xs[|xs| - 1]|;
    }
  }

  /** Where the `k`-th piece of `sep.join(xs)` starts. */
  function JoinOffset(sep: string, xs: seq<string>, k: nat): nat
    requires k <= |xs|
  {
    if k == 0 then 0 else |xs[0]| + |sep| + JoinOffset(sep, xs[1..], k - 1)
  }

  /** `t` found at `i` in `b` is found at `|a| + i` in `a + b + c`. */
  lemma OccursShift(a: string, b: string, c: string, t: string, i: int)
    requires OccursAt(b, t, i)
    ensures OccursAt(a + b + c, t, |a| + i)
  {
    assert (a + b + c)[|a| + i..|a| + i + |t|] == b[i..i + |t|];
  }

  /**
   * Every piece of a join appears at its offset, and the next piece starts
   * right after it and one separator: the pieces are laid out in order.
   */
  lemma {:induction false} JoinPieceAt(sep: string, xs: seq<string>, k: nat)
    requires k < |xs|
    ensures OccursAt(Join(sep, xs), xs[k], JoinOffset(sep, xs, k))
    ensures JoinOffset(sep, xs, k + 1) == JoinOffset(sep, xs, k) + |xs[k]| + |sep|
  {
    if k == 0 {
      if |xs| > 1 {
        assert Join(sep, xs) == xs[0] + (sep + Join(sep, xs[1..]));
      }
      assert JoinOffset(sep, xs[1..], 0) == 0;
    } else {
      JoinPieceAt(sep, xs[1..], k - 1);
      assert xs[1..][k - 1] == xs[k];
      OccursShift(xs[0] + sep, Join(sep, xs[1..]), "", xs[k], JoinOffset(sep, xs[1..], k - 1));
      assert Join(sep, xs) == xs[0] + sep + Join(sep, xs[1..]) + "";
    }
  }

  // ---------------------------------------------------------------------------
  // s.split(c) for a one-character separator

  /** Python's `s.split(c)`: the maximal runs between separators, at least one. */
  function Split(s: string, c: char): (r: seq<string>)
    ensures |r| >= 1
    ensures forall i :: 0 <= i < |r| ==> c !in r[i]
  {
    if |s| == 0 then [""]
    else
      var rest := Split(s[1..], c);
      if s[0] == c then [""] + rest
      else [[s[0]] + rest[0]] + rest[1..]
  }

  /** Joining the pieces of a split with the separator restores the text. */
  lemma {:induction false} JoinSplit(s: string, c: char)
    ensures Join([c], Split(s, c)) == s
  {
    if |s| > 0 {
      var rest := Split(s[1..], c);
      JoinSplit(s[1..], c);
      if s[0] == c {
        assert ([""] + rest)[1..] == rest;
      } else {
        JoinPrependFirst([c], [s[0]], rest);
      }
      assert s == [s[0]] + s[1..];
    }
  }

  /** Splitting a join of separator-free pieces gives the pieces back. */
  lemma {:induction false} SplitJoin(ps: seq<string>, c: char)
    requires |ps| >= 1
    requires forall i :: 0 <= i < |ps| ==> c !in ps[i]
    ensures Split(Join([c], ps), c) == ps
  {
    if |ps| == 1 {
      SplitNoSeparator(ps[0], c);
    } else {
      SplitJoin(ps[1..], c);
      SplitAfterPiece(ps[0], c, Join([c], ps[1..]));
      assert Join([c], ps) == ps[0] + [c] + Join([c], ps[1..]);
      assert ps == [ps[0]] + ps[1..];
    }
  }

  /** The pieces of a join before the first one holding the separator split back unchanged. */
  lemma {:induction false} SplitJoinPrefix(ps: seq<string>, c: char, k: nat)
    requires k < |ps|
    requires forall i :: 0 <= i < k ==> c !in ps[i]
    ensures k < |Split(Join([c], ps), c)|
    ensures Split(Join([c], ps), c)[..k] == ps[..k]
  {
    if k > 0 {
      SplitJoinPrefix(ps[1..], c, k - 1);
      SplitAfterPiece(ps[0], c, Join([c], ps[1..]));
      assert Join([c], ps) == ps[0] + [c] + Join([c], ps[1..]);
      assert ps[..k] == [ps[0]] + ps[1..][..k - 1];
    }
  }

  lemma {:induction false} SplitNoSeparator(p: string, c: char)
    requires c !in p
    ensures Split(p, c) == [p]
  {
    if |p| > 0 {
      SplitNoSeparator(p[1..], c);
      assert p == [p[0]] + p[1..];
    }
  }

  lemma {:induction false} SplitAfterPiece(p: string, c: char, t: string)
    requires c !in p
    ensures Split(p + [c] + t, c) == [p] + Split(t, c)
  {
    if |p| == 0 {
      assert p + [c] + t == [c] + t;
      assert ([c] + t)[1..] == t;
    } else {
      assert (p + [c] + t)[1..] == p[1..] + [c] + t;
      SplitAfterPiece(p[1..], c, t);
      assert p == [p[0]] + p[1..];
    }
  }

  // ---------------------------------------------------------------------------
  // str(n) for an int, and its inverse int(s)

  predicate IsDigit(c: char) { '0' <= c <= '9' }

  function DigitChar(d: nat): (c: char)
    requires d < 10
    ensures IsDigit(c)
  {
    ('0' as int + d) as char
  }

  function DigitValue(c: char): (d: nat)
    requires IsDigit(c)
    ensures d < 10
  {
    c as int - '0' as int
  }

  /** Decimal digits of `n`, most significant first, no leading zero. */
  function NatDigits(n: nat): (r: string)
    ensures |r| >= 1
    ensures forall i :: 0 <= i < |r| ==> IsDigit(r[i])
  {
    if n < 10 then [DigitChar(n)] else NatDigits(n / 10) + [DigitChar(n % 10)]
  }

  /** Python's `str(n)` (and the `{n}` of an f-string) for an int. */
  function IntString(n: int): string
  {
    if n < 0 then "-" + NatDigits(-n) else NatDigits(n)
  }

  function ParseNat(s: string): nat
    requires AllDigits(s)
  {
    if |s| == 0 then 0 else ParseNat(s[..|s| - 1]) * 10 + DigitValue(s[|s| - 1])
  }

  /** Python's `int(s)` on an optionally signed run of ASCII digits. */
  function ParseInt(s: string): Option<int>
  {
    var negative := |s| > 0 && s[0] == '-';
    var digits := if negative then s[1..] else s;
    if |digits| == 0 || !AllDigits(digits) then None
    else if negative then Some(0 - ParseNat(digits) as int)
    else Some(ParseNat(digits) as int)
  }

  predicate AllDigits(s: string) {
    forall i :: 0 <= i < |s| ==> IsDigit(s[i])
  }

  lemma {:induction false} ParseNatDigits(n: nat)
    ensures ParseNat(NatDigits(n)) == n
  {
    if n >= 10 {
      ParseNatDigits(n / 10);
      var r := NatDigits(n);
      assert r[..|r| - 1] == NatDigits(n / 10);
    }
  }

  /** `int(str(n)) == n`: the decimal rendering loses nothing. */
  lemma IntStringRoundTrip(n: int)
    ensures ParseInt(IntString(n)) == Some(n)
  {
    if n < 0 {
      var d := NatDigits(-n);
      ParseNatDigits(-n);
      var s := "-" + d;
      assert IntString(n) == s;
      assert s[0] == '-' && s[1..] == d && AllDigits(d);
    } else {
      var d := NatDigits(n);
      ParseNatDigits(n);
      assert IntString(n) == d;
      assert d[0] != '-' && AllDigits(d);
    }
  }

  // ---------------------------------------------------------------------------
  // Lower-case hexadecimal, as `repr` and `json.dumps` write escapes

  predicate IsHexDigit(c: char) { '0' <= c <= '9' || 'a' <= c <= 'f' }

  function HexDigit(d: nat): (c: char)
    requires d < 16
    ensures IsHexDigit(c)
  {
    if d < 10 then ('0' as int + d) as char else ('a' as int + d - 10) as char
  }

  function HexValue(c: char): (d: nat)
    requires IsHexDigit(c)
    ensures d < 16
  {
    if c <= '9' then c as int - '0' as int else c as int - 'a' as int + 10
  }

  function Pow16(width: nat): (p: nat)
    ensures p >= 1
  {
    if width == 0 then 1 else 16 * Pow16(width - 1)
  }

  /** The last `width` hexadecimal digits of `n`, zero-padded. */
  function Hex(n: nat, width: nat): (r: string)
    ensures |r| == width
    ensures forall i :: 0 <= i < |r| ==> IsHexDigit(r[i])
  {
    if width == 0 then "" else Hex(n / 16, width - 1) + [HexDigit(n % 16)]
  }

  function ParseHex(s: string): nat
    requires forall i :: 0 <= i < |s| ==> IsHexDigit(s[i])
  {
    if |s| == 0 then 0 else ParseHex(s[..|s| - 1]) * 16 + HexValue(s[|s| - 1])
  }

  /** Reading back `width` hex digits gives `n` when it fits in them. */
  lemma {:induction false} ParseHexRoundTrip(n: nat, width: nat)
    requires n < Pow16(width)
    ensures ParseHex(Hex(n, width)) == n
  {
    if width > 0 {
      ParseHexRoundTrip(n / 16, width - 1);
      var r := Hex(n, width);
      assert r[..|r| - 1] == Hex(n / 16, width - 1);
      assert HexValue(HexDigit(n % 16)) == n % 16;
    }
  }

  // ---------------------------------------------------------------------------
  // s.strip()

  /** Python's `str.isspace()` for one character. */
  predicate IsSpace(c: char) {
    || c == ' '
    || '\t' <= c <= '\r'
    || '\U{1c}' <= c <= '\U{1f}'
    || c == '\U{85}' || c == '\U{a0}' || c == '\U{1680}'
    || '\U{2000}' <= c <= '\U{200a}'
    || c == '\U{2028}' || c == '\U{2029}' || c == '\U{202f}' || c == '\U{205f}' || c == '\U{3000}'
  }

  /** `s.lstrip()`: the suffix left after dropping leading whitespace. */
  function LStrip(s: string): (r: string)
    ensures |r| <= |s| && r == s[|s| - |r|..]
    ensures forall k :: 0 <= k < |s| - |r| ==> IsSpace(s[k])
    ensures r == "" || !IsSpace(r[0])
  {
    if |s| > 0 && IsSpace(s[0]) then LStrip(s[1..]) else s
  }

  /** `s.rstrip()`: the prefix left after dropping trailing whitespace. */
  function RStrip(s: string): (r: string)
    ensures |r| <= |s| && r == s[..|r|]
    ensures forall k :: |r| <= k < |s| ==> IsSpace(s[k])
    ensures r == "" || !IsSpace(r[|r| - 1])
  {
    if |s| > 0 && IsSpace(s[|s| - 1]) then RStrip(s[..|s| - 1]) else s
  }

  /** `s.strip()` */
  function Strip(s: string): string
  {
    RStrip(LStrip(s))
  }

  /**
   * What `strip` keeps (the parts it cuts are described by `LStrip` and
   * `RStrip`): text that neither starts nor ends with whitespace, and nothing
   * at all exactly when `s` is all whitespace.
   */
  lemma StripSpec(s: string)
    ensures var r := Strip(s); r == "" || (!IsSpace(r[0]) && !IsSpace(r[|r| - 1]))
    ensures Strip(s) == "" <==> forall k :: 0 <= k < |s| ==> IsSpace(s[k])
  {
    StripEnds(s);
    StripEmptyIffSpace(s);
  }

  lemma StripEnds(s: string)
    ensures var r := Strip(s); r == "" || (!IsSpace(r[0]) && !IsSpace(r[|r| - 1]))
  {
    var l := LStrip(s);
    var r := RStrip(l);
    if r != "" {
      assert r[0] == l[0];
    }
  }

  lemma StripEmptyIffSpace(s: string)
    ensures Strip(s) == "" <==> forall k :: 0 <= k < |s| ==> IsSpace(s[k])
  {
    var l := LStrip(s);
    if forall k :: 0 <= k < |s| ==> IsSpace(s[k]) {
      LStripAllSpace(s);
    }
    if RStrip(l) == "" {
      AllSpaceAround(s, |s| - |l|);
    }
  }

  /** Whitespace before `i` and whitespace from `i` on make a string of whitespace. */
  lemma AllSpaceAround(s: string, i: int)
    requires 0 <= i <= |s|
    requires forall k :: 0 <= k < i ==> IsSpace(s[k])
    requires forall k :: 0 <= k < |s| - i ==> IsSpace(s[i..][k])
    ensures forall k :: 0 <= k < |s| ==> IsSpace(s[k])
  {
    forall k | i <= k < |s| ensures IsSpace(s[k]) {
      assert s[k] == s[i..][k - i];
    }
  }

  /** A string of whitespace only strips to nothing from the left. */
  lemma {:induction false} LStripAllSpace(s: string)
    requires forall k :: 0 <= k < |s| ==> IsSpace(s[k])
    ensures LStrip(s) == ""
  {
    if |s| > 0 {
      LStripAllSpace(s[1..]);
    }
  }

  /** Stripping twice is stripping once. */
  lemma StripIdempotent(s: string)
    ensures Strip(Strip(s)) == Strip(s)
  {
    var r := Strip(s);
    assert r == "" || !IsSpace(r[0]);
    assert LStrip(r) == r;
    assert r == "" || !IsSpace(r[|r| - 1]);
  }

  // ---------------------------------------------------------------------------
  // repr(s) and str(list_of_str)

  /**
   * The quote `repr` chooses: a double quote when the text holds a single quote
   * and no double quote, a single quote otherwise.
   */
  function ReprQuote(s: string): char
  {
    if '\'' in s && '"' !in s then '"' else '\''
  }

  /**
   * The assigned code points above ASCII that Python's `str.isprintable()`
   * rejects in Unicode 15.0: the C1 controls and no-break space, the space and
   * line and paragraph separators other than the ASCII space, the format
   * characters, and the private-use planes. Surrogates are not characters here.
   */
  predicate NonPrintable(c: char)
  {
    || '\U{80}' <= c <= '\U{a0}' || c == '\U{ad}'
    || '\U{600}' <= c <= '\U{605}' || c == '\U{61c}' || c == '\U{6dd}' || c == '\U{70f}'
    || '\U{890}' <= c <= '\U{891}' || c == '\U{8e2}' || c == '\U{1680}' || c == '\U{180e}'
    || '\U{2000}' <= c <= '\U{200f}' || '\U{2028}' <= c <= '\U{202f}'
    || '\U{205f}' <= c <= '\U{2064}' || '\U{2066}' <= c <= '\U{206f}' || c == '\U{3000}'
    || '\U{e000}' <= c <= '\U{f8ff}' || c == '\U{feff}' || '\U{fff9}' <= c <= '\U{fffb}'
    || c == '\U{110bd}' || c == '\U{110cd}' || '\U{13430}' <= c <= '\U{1343f}'
    || '\U{1bca0}' <= c <= '\U{1bca3}' || '\U{1d173}' <= c <= '\U{1d17a}'
    || c == '\U{e0001}' || '\U{e0020}' <= c <= '\U{e007f}'
    || '\U{f0000}' <= c <= '\U{ffffd}' || '\U{100000}' <= c <= '\U{10fffd}'
  }

  /**
   * How `repr` writes one character inside quote `q`: the quote and the
   * backslash escaped, three control characters by name, other ASCII controls
   * and non-printable characters as a hexadecimal escape of two, four or eight
   * digits by size, and everything else as itself.
   */
  function ReprChar(c: char, q: char): string
  {
    if c == q || c == '\\' then ['\\', c]
    else if c == '\n' then "\\n"
    else if c == '\r' then "\\r"
    else if c == '\t' then "\\t"
    else if c < ' ' || c == '\U{7f}' then "\\x" + Hex(c as int, 2)
    else if c < '\U{7f}' || !NonPrintable(c) then [c]
    else if c <= '\U{ff}' then "\\x" + Hex(c as int, 2)
    else if c <= '\U{ffff}' then "\\u" + Hex(c as int, 4)
    else "\\U" + Hex(c as int, 8)
  }

  function ReprBody(s: string, q: char): string
  {
    if |s| == 0 then "" else ReprChar(s[0], q) + ReprBody(s[1..], q)
  }

  /** Python's `repr(s)`. */
  function Repr(s: string): string
  {
    var q := ReprQuote(s);
    [q] + ReprBody(s, q) + [q]
  }

  function Reprs(xs: seq<string>): (r: seq<string>)
    ensures |r| == |xs|
    ensures forall i :: 0 <= i < |xs| ==> r[i] == Repr(xs[i])
  {
    if |xs| == 0 then [] else [Repr(xs[0])] + Reprs(xs[1..])
  }

  /** Python's `str(xs)` (and the `{xs}` of an f-string) for a list of strings. */
  function ListRepr(xs: seq<string>): string
  {
    "[" + Join(", ", Reprs(xs)) + "]"
  }

  /** How many characters an escape opened by a backslash and `k` takes. */
  function EscapeWidth(k: char): (w: nat)
    ensures w >= 2
  {
    if k == 'x' then 4 else if k == 'u' then 6 else if k == 'U' then 10 else 2
  }

  /** Reads back the inside of a quoted `repr`; `None` on a malformed escape. */
  function Unescape(t: string): Option<string>
  {
    if |t| == 0 then Some("")
    else
      var width := if t[0] != '\\' then 1 else if |t| == 1 then 2 else EscapeWidth(t[1]);
      if width > |t| then None
      else
        var head := UnescapeOne(t[..width]);
        var tail := Unescape(t[width..]);
        if head.None? || tail.None? then None else Some([head.value] + tail.value)
  }

  predicate AllHex(s: string)
  {
    forall i :: 0 <= i < |s| ==> IsHexDigit(s[i])
  }

  /** A number that names a character: any code point but a surrogate. */
  predicate IsScalar(n: nat)
  {
    n < 0xD800 || 0xE000 <= n < 0x11_0000
  }

  function UnescapeOne(e: string): Option<char>
  {
    if |e| == 1 && e[0] != '\\' then Some(e[0])
    else if |e| == 2 && e[0] == '\\' && e[1] in "\\'\"" then Some(e[1])
    else if e == "\\n" then Some('\n')
    else if e == "\\r" then Some('\r')
    else if e == "\\t" then Some('\t')
    else if |e| > 2 && e[0] == '\\' && |e| == EscapeWidth(e[1]) && AllHex(e[2..]) then
      var n := ParseHex(e[2..]);
      if IsScalar(n) then Some(n as char) else None
    else None
  }

  /** One escape of the width `Unescape` reads, followed by more text. */
  lemma UnescapeStep(e: string, rest: string, c: char)
    requires (|e| == 1 && e[0] != '\\') || (|e| >= 2 && e[0] == '\\' && |e| == EscapeWidth(e[1]))
    requires UnescapeOne(e) == Some(c)
    ensures Unescape(e + rest) ==
      match Unescape(rest) case None => None case Some(u) => Some([c] + u)
  {
    var t := e + rest;
    assert t[..|e|] == e && t[|e|..] == rest;
  }

  /** A character written as a backslash, `k` and its code in hex reads back to itself. */
  lemma HexEscapeUnescapes(c: char, k: char, width: nat)
    requires EscapeWidth(k) == width + 2 && width > 0
    requires c as int < Pow16(width)
    ensures UnescapeOne(['\\', k] + Hex(c as int, width)) == Some(c)
  {
    ParseHexRoundTrip(c as int, width);
    var h := Hex(c as int, width);
    var e := ['\\', k] + h;
    assert e[2..] == h;
    assert AllHex(h);
  }

  lemma ReprCharUnescapes(c: char, q: char, rest: string)
    requires q == '\'' || q == '"'
    ensures Unescape(ReprChar(c, q) + rest) ==
      match Unescape(rest) case None => None case Some(u) => Some([c] + u)
  {
    var e := ReprChar(c, q);
    if c == q || c == '\\' {
      assert e == ['\\', c];
      UnescapeStep(e, rest, c);
    } else if c == '\n' || c == '\r' || c == '\t' {
      assert |e| == 2 && e[0] == '\\' && EscapeWidth(e[1]) == 2;
      UnescapeStep(e, rest, c);
    } else if c < ' ' || c == '\U{7f}' || (NonPrintable(c) && c <= '\U{ff}') {
      assert Pow16(2) == 256;
      HexEscapeUnescapes(c, 'x', 2);
      UnescapeStep(e, rest, c);
    } else if c < '\U{7f}' || !NonPrintable(c) {
      assert e == [c];
      UnescapeStep(e, rest, c);
    } else if c <= '\U{ffff}' {
      assert Pow16(4) == 0x1_0000;
      HexEscapeUnescapes(c, 'u', 4);
      UnescapeStep(e, rest, c);
    } else {
      assert Pow16(8) == 0x1_0000_0000;
      HexEscapeUnescapes(c, 'U', 8);
      UnescapeStep(e, rest, c);
    }
  }

  /**
   * `repr` writes a character as itself exactly when it is neither the quote,
   * the backslash, a control character nor one `str.isprintable()` rejects.
   */
  lemma ReprCharVerbatim(c: char, q: char)
    requires q == '\'' || q == '"'
    ensures ReprChar(c, q) == [c] <==>
      c != q && c != '\\' && ' ' <= c && c != '\U{7f}' && !NonPrintable(c)
  {
    var e := ReprChar(c, q);
    if !(c != q && c != '\\' && ' ' <= c && c != '\U{7f}' && !NonPrintable(c)) {
      assert |e| >= 2;
    }
  }

  /** A zero-width space and a C1 control are escaped, not copied. */
  lemma ReprEscapesInvisible()
    ensures ReprChar('\U{200b}', '\'') == "\\u200b"
    ensures ReprChar('\U{85}', '\'') == "\\x85"
  {
    assert NonPrintable('\U{200b}') && NonPrintable('\U{85}');
    assert Hex(2, 1) == "2";
    assert Hex(0x20, 2) == Hex(2, 1) + "0";
    assert Hex(0x200, 3) == Hex(0x20, 2) + "0";
    assert Hex(0x200b, 4) == Hex(0x200, 3) + "b";
    assert Hex(8, 1) == "8";
    assert Hex(0x85, 2) == Hex(8, 1) + "5";
  }

  /** `repr` loses nothing: its quoted body reads back to the text. */
  lemma {:induction false} ReprRoundTrip(s: string)
    ensures var q := ReprQuote(s); var r := Repr(s);
      |r| >= 2 && r[0] == q && r[|r| - 1] == q && Unescape(r[1..|r| - 1]) == Some(s)
  {
    var q := ReprQuote(s);
    ReprBodyRoundTrip(s, q);
    var r := Repr(s);
    assert r[1..|r| - 1] == ReprBody(s, q);
  }

  lemma {:induction false} ReprBodyRoundTrip(s: string, q: char)
    requires q == '\'' || q == '"'
    ensures Unescape(ReprBody(s, q)) == Some(s)
  {
    if |s| > 0 {
      assert s == [s[0]] + s[1..];
      var rest := ReprBody(s[1..], q);
      assert ReprBody(s, q) == ReprChar(s[0], q) + rest;
      ReprBodyRoundTrip(s[1..], q);
      ReprCharUnescapes(s[0], q, rest);
    }
  }

  /** `repr` never writes a raw line break: a line break becomes the escape `\n`. */
  lemma {:induction false} ReprBodyOneLine(s: string, q: char)
    requires q != '\n'
    ensures '\n' !in ReprBody(s, q)
  {
    if |s| > 0 {
      ReprBodyOneLine(s[1..], q);
      ReprCharOneLine(s[0], q);
    }
  }

  lemma ReprCharOneLine(c: char, q: char)
    requires q != '\n'
    ensures '\n' !in ReprChar(c, q)
  {
    var e := ReprChar(c, q);
    if |e| > 2 {
      assert AllHex(e[2..]);
      assert e == e[..2] + e[2..];
    }
  }

  /** `str(xs)` of a list of strings is one line, whatever the strings hold. */
  lemma ListReprOneLine(xs: seq<string>)
    ensures '\n' !in ListRepr(xs)
  {
    var rs := Reprs(xs);
    forall i | 0 <= i < |xs| ensures '\n' !in rs[i] {
      ReprBodyOneLine(xs[i], ReprQuote(xs[i]));
    }
    JoinAvoids(", ", rs, '\n');
  }
}
