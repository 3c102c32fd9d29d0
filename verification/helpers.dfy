/**
 * URL and parameter helpers of the SDK (`monitoring/helpers.py`):
 * `safe` (percent-encoding of one path segment), `endpoint` (`{}` template
 * filling), `rotate`, `urlify`, `encode` and `get_items`.
 */
module Helpers {
  import opened PyValues

  type Byte = b: int | 0 <= b < 256

  // ---------------------------------------------------------------------
  // UTF-8: `quote` encodes a str to UTF-8 (RFC 3629) before escaping it.
  // Dafny's `char` is a Unicode scalar value, so no surrogate can occur.
  // ---------------------------------------------------------------------

  function Utf8Char(c: char): (r: seq<Byte>)
    ensures 1 <= |r| <= 4
    ensures c as int < 0x80 ==> r == [c as int]
    ensures c as int >= 0x80 ==> forall i :: 0 <= i < |r| ==> r[i] >= 0x80
  {
    var n := c as int;
    if n < 0x80 then [n]
    else if n < 0x800 then [0xC0 + n / 64, 0x80 + n % 64]
    else if n < 0x10000 then [0xE0 + n / 4096, 0x80 + (n / 64) % 64, 0x80 + n % 64]
    else [0xF0 + n / 262144, 0x80 + (n / 4096) % 64, 0x80 + (n / 64) % 64, 0x80 + n % 64]
  }

  function Utf8(s: string): (r: seq<Byte>)
    ensures |s| <= |r| <= 4 * |s|
  {
    if s == [] then [] else Utf8Char(s[0]) + Utf8(s[1..])
  }

  lemma {:induction false} Utf8Append(s: string, t: string)
    ensures Utf8(s + t) == Utf8(s) + Utf8(t)
  {
    if s != [] {
      assert (s + t)[0] == s[0];
      assert (s + t)[1..] == s[1..] + t;
      Utf8Append(s[1..], t);
      calc {
        Utf8(s + t);
        Utf8Char(s[0]) + Utf8(s[1..] + t);
        Utf8Char(s[0]) + (Utf8(s[1..]) + Utf8(t));
        (Utf8Char(s[0]) + Utf8(s[1..])) + Utf8(t);
      }
    } else {
      assert s + t == t;
    }
  }

  /** The length of a UTF-8 sequence, read off its first byte. */
  function Utf8SequenceLength(b0: int): nat {
    if b0 < 0x80 then 1 else if b0 < 0xE0 then 2 else if b0 < 0xF0 then 3 else 4
  }

  /** The code point a well-formed UTF-8 sequence of one to four bytes stands for. */
  function CodePoint(r: seq<Byte>): int
    requires 1 <= |r| <= 4
  {
    if |r| == 1 then r[0]
    else if |r| == 2 then (r[0] as int - 0xC0) * 64 + (r[1] as int - 0x80)
    else if |r| == 3 then (r[0] as int - 0xE0) * 4096 + (r[1] as int - 0x80) * 64 + (r[2] as int - 0x80)
    else (r[0] as int - 0xF0) * 262144 + (r[1] as int - 0x80) * 4096 + (r[2] as int - 0x80) * 64
         + (r[3] as int - 0x80)
  }

  lemma DivDiv64(n: int)
    requires n >= 0
    ensures n / 4096 == (n / 64) / 64
    ensures n / 262144 == (n / 4096) / 64
  {
    var q := n / 64;
    assert n == 4096 * (q / 64) + (64 * (q % 64) + n % 64);
    var p := n / 4096;
    assert n == 262144 * (p / 64) + (4096 * (p % 64) + n % 4096);
  }

  /** Each character's encoding announces its own length and decodes back to the character. */
  lemma Utf8CharDecodes(c: char)
    ensures |Utf8Char(c)| == Utf8SequenceLength(Utf8Char(c)[0])
    ensures CodePoint(Utf8Char(c)) == c as int
  {
    var n := c as int;
    DivDiv64(n);
  }

  /** Distinct strings have distinct UTF-8 encodings. */
  lemma {:induction false} Utf8Injective(s: string, t: string)
    requires Utf8(s) == Utf8(t)
    ensures s == t
  {
    if s == [] || t == [] {
      assert |Utf8(s)| == 0 || |Utf8(t)| == 0;
    } else {
      var a, b := Utf8Char(s[0]), Utf8Char(t[0]);
      Utf8CharDecodes(s[0]);
      Utf8CharDecodes(t[0]);
      assert Utf8(s) == a + Utf8(s[1..]) && Utf8(t) == b + Utf8(t[1..]);
      assert a[0] == Utf8(s)[0] == b[0];
      assert |a| == |b|;
      assert a == Utf8(s)[..|a|] == b;
      assert Utf8(s[1..]) == Utf8(s)[|a|..] == Utf8(t[1..]);
      Utf8Injective(s[1..], t[1..]);
      assert s[0] as int == t[0] as int;
      assert s == [s[0]] + s[1..] && t == [t[0]] + t[1..];
    }
  }

  // ---------------------------------------------------------------------
  // Percent-encoding, sections 2.1 and 2.3 of RFC 3986, as done by
  // `quote(str(e), safe='')`: no reserved character is exempted.
  // ---------------------------------------------------------------------

  /** The bytes `quote` never escapes: ALPHA, DIGIT and `_ . - ~`. */
  predicate Unreserved(b: int) {
    || ('A' as int <= b <= 'Z' as int)
    || ('a' as int <= b <= 'z' as int)
    || ('0' as int <= b <= '9' as int)
    || b == '_' as int || b == '.' as int || b == '-' as int || b == '~' as int
  }

  predicate IsUpperHex(c: char) {
    '0' <= c <= '9' || 'A' <= c <= 'F'
  }

  function HexDigit(d: int): (c: char)
    requires 0 <= d < 16
    ensures IsUpperHex(c)
  {
    if d < 10 then '0' + d as char else 'A' + (d - 10) as char
  }

  /** The value of a hex digit in either case, as a decoder reads it. */
  function HexValue(c: char): (r: Option<int>)
    ensures r.Some? ==> 0 <= r.value < 16
    ensures IsUpperHex(c) ==> r.Some?
  {
    if '0' <= c <= '9' then Some(c as int - '0' as int)
    else if 'A' <= c <= 'F' then Some(c as int - 'A' as int + 10)
    else if 'a' <= c <= 'f' then Some(c as int - 'a' as int + 10)
    else None
  }

  lemma HexDigitValue(d: int)
    requires 0 <= d < 16
    ensures HexValue(HexDigit(d)) == Some(d)
  {
  }

  /** `%HH` with upper-case hex digits. */
  function Triple(b: Byte): (r: string)
    ensures |r| == 3 && r[0] == '%'
  {
    ['%', HexDigit(b / 16), HexDigit(b % 16)]
  }

  function EscapeByte(b: Byte): string {
    if Unreserved(b) then [b as char] else Triple(b)
  }

  function Quote(bs: seq<Byte>): string {
    if bs == [] then [] else EscapeByte(bs[0]) + Quote(bs[1..])
  }

  lemma {:induction false} QuoteAppend(a: seq<Byte>, b: seq<Byte>)
    ensures Quote(a + b) == Quote(a) + Quote(b)
  {
    if a != [] {
      assert (a + b)[0] == a[0];
      assert (a + b)[1..] == a[1..] + b;
      QuoteAppend(a[1..], b);
      calc {
        Quote(a + b);
        EscapeByte(a[0]) + Quote(a[1..] + b);
        EscapeByte(a[0]) + (Quote(a[1..]) + Quote(b));
        (EscapeByte(a[0]) + Quote(a[1..])) + Quote(b);
      }
    } else {
      assert a + b == b;
    }
  }

  /** Every '%' in the text starts a `%HH` escape and every other character is unreserved. */
  predicate WellEscaped(r: string) {
    && (forall i :: 0 <= i < |r| ==> Unreserved(r[i] as int) || r[i] == '%')
    && (forall i :: 0 <= i < |r| && r[i] == '%' ==> i + 2 < |r| && IsUpperHex(r[i + 1]) && IsUpperHex(r[i + 2]))
  }

  lemma WellEscapedConcat(a: string, b: string)
    requires WellEscaped(a) && WellEscaped(b)
    ensures WellEscaped(a + b)
  {
    var s := a + b;
    forall i | 0 <= i < |s|
      ensures Unreserved(s[i] as int) || s[i] == '%'
    {
      if i < |a| { assert s[i] == a[i]; } else { assert s[i] == b[i - |a|]; }
    }
    forall i | 0 <= i < |s| && s[i] == '%'
      ensures i + 2 < |s| && IsUpperHex(s[i + 1]) && IsUpperHex(s[i + 2])
    {
      if i < |a| {
        assert a[i] == '%';
        assert s[i + 1] == a[i + 1] && s[i + 2] == a[i + 2];
      } else {
        assert b[i - |a|] == '%';
        assert s[i + 1] == b[i - |a| + 1] && s[i + 2] == b[i - |a| + 2];
      }
    }
  }

  lemma {:induction false} QuoteWellEscaped(bs: seq<Byte>)
    ensures WellEscaped(Quote(bs))
  {
    if bs != [] {
      var e := EscapeByte(bs[0]);
      assert WellEscaped(e);
      QuoteWellEscaped(bs[1..]);
      WellEscapedConcat(e, Quote(bs[1..]));
    }
  }

  /** `safe(e)`: the percent-encoded UTF-8 of the text of `e`. */
  function Safe(s: string): (r: string)
    ensures WellEscaped(r)
    ensures '/' !in r && '?' !in r && '#' !in r
    ensures |s| <= |r| <= 12 * |s|
  {
    QuoteWellEscaped(Utf8(s));
    QuoteLength(Utf8(s));
    Quote(Utf8(s))
  }

  lemma {:induction false} QuoteLength(bs: seq<Byte>)
    ensures |bs| <= |Quote(bs)| <= 3 * |bs|
  {
    if bs != [] { QuoteLength(bs[1..]); }
  }

  /** Percent-decoding, as `unquote_to_bytes` does it: `%HH` (either case) is one byte,
      any other character stands for its UTF-8 bytes. */
  function PercentDecode(s: string): seq<Byte>
  {
    if s == [] then []
    else if |s| >= 3 && s[0] == '%' && HexValue(s[1]).Some? && HexValue(s[2]).Some? then
      [HexValue(s[1]).value * 16 + HexValue(s[2]).value] + PercentDecode(s[3..])
    else Utf8Char(s[0]) + PercentDecode(s[1..])
  }

  lemma DecodeEscapeByte(b: Byte, t: string)
    ensures PercentDecode(EscapeByte(b) + t) == [b] + PercentDecode(t)
  {
    var s := EscapeByte(b) + t;
    if Unreserved(b) {
      assert s[0] == b as char && s[1..] == t;
    } else {
      HexDigitValue(b / 16);
      HexDigitValue(b % 16);
      assert s[0] == '%' && s[1] == HexDigit(b / 16) && s[2] == HexDigit(b % 16);
      assert s[3..] == t;
    }
  }

  lemma {:induction false} QuoteDecodes(bs: seq<Byte>)
    ensures PercentDecode(Quote(bs)) == bs
  {
    if bs != [] {
      DecodeEscapeByte(bs[0], Quote(bs[1..]));
      QuoteDecodes(bs[1..]);
    }
  }

  /** Percent-decoding the output of `safe` gives back the UTF-8 bytes of its input. */
  lemma SafeDecodes(s: string)
    ensures PercentDecode(Safe(s)) == Utf8(s)
  {
    QuoteDecodes(Utf8(s));
  }

  /** Distinct names have distinct escaped forms. */
  lemma SafeInjective(s: string, t: string)
    requires Safe(s) == Safe(t)
    ensures s == t
  {
    SafeDecodes(s);
    SafeDecodes(t);
    Utf8Injective(s, t);
  }

  /** `safe` works character by character. */
  lemma SafeAppend(s: string, t: string)
    ensures Safe(s + t) == Safe(s) + Safe(t)
  {
    Utf8Append(s, t);
    QuoteAppend(Utf8(s), Utf8(t));
  }

  lemma {:induction false} QuoteEscapesEach(bs: seq<Byte>)
    requires forall i :: 0 <= i < |bs| ==> !Unreserved(bs[i])
    ensures |Quote(bs)| == 3 * |bs|
    ensures forall j :: 0 <= j < |bs| ==> Quote(bs)[3 * j..3 * j + 3] == Triple(bs[j])
  {
    if bs != [] {
      QuoteEscapesEach(bs[1..]);
      var q := Quote(bs);
      assert q == Triple(bs[0]) + Quote(bs[1..]);
      forall j | 0 <= j < |bs|
        ensures q[3 * j..3 * j + 3] == Triple(bs[j])
      {
        if j > 0 {
          assert q[3 * j..3 * j + 3] == Quote(bs[1..])[3 * (j - 1)..3 * (j - 1) + 3];
          assert bs[1..][j - 1] == bs[j];
        }
      }
    }
  }

  /** One character: an unreserved one is kept, any other becomes `%HH` for each of its UTF-8 bytes. */
  lemma SafeChar(c: char)
    ensures Unreserved(c as int) ==> Safe([c]) == [c]
    ensures !Unreserved(c as int) ==>
      |Safe([c])| == 3 * |Utf8Char(c)| &&
      forall j :: 0 <= j < |Utf8Char(c)| ==> Safe([c])[3 * j..3 * j + 3] == Triple(Utf8Char(c)[j])
  {
    assert [c][1..] == [];
    assert Utf8([c]) == Utf8Char(c);
    if Unreserved(c as int) {
      assert Utf8Char(c) == [c as int];
      assert Quote([c as int]) == EscapeByte(c as int) + Quote([]);
      assert (c as int) as char == c;
    } else {
      QuoteEscapesEach(Utf8Char(c));
    }
  }

  /** A text made only of unreserved characters passes through `safe` unchanged. */
  lemma {:induction false} SafeKeepsUnreserved(s: string)
    requires forall i :: 0 <= i < |s| ==> Unreserved(s[i] as int)
    ensures Safe(s) == s
  {
    if s != [] {
      assert s == [s[0]] + s[1..];
      SafeAppend([s[0]], s[1..]);
      SafeChar(s[0]);
      SafeKeepsUnreserved(s[1..]);
    }
  }

  /** `safe(str(n))` of an integer is its decimal text. */
  lemma SafeNumber(n: int)
    ensures Safe(Str(Number(n))) == Str(Number(n))
  {
    SafeKeepsUnreserved(Str(Number(n)));
  }

  // ---------------------------------------------------------------------
  // `endpoint(path, *args)`: `str.format` with every argument passed
  // through `quote(str(arg), safe='')`.  Templates use `{}` fields and the
  // `{{` / `}}` escapes; any other field syntax is outside the model.
  // ---------------------------------------------------------------------

  datatype FormatError =
    | IndexOutOfRange   // IndexError: more `{}` fields than arguments
    | SingleBrace       // ValueError: a lone '{' at the end or a lone '}'
    | UnsupportedField  // a named, numbered or formatted field

  function Prefixed(s: string, r: Result<string, FormatError>): Result<string, FormatError> {
    if r.Ok? then Ok(s + r.value) else r
  }

  /** `t.format(*args)` for a template using automatic `{}` numbering. */
  function Format(t: string, args: seq<string>): Result<string, FormatError>
    decreases |t|
  {
    if t == [] then Ok([])
    else if t[0] == '{' then
      if |t| == 1 then Err(SingleBrace)
      else if t[1] == '{' then Prefixed("{", Format(t[2..], args))
      else if t[1] == '}' then
        if args == [] then Err(IndexOutOfRange) else Prefixed(args[0], Format(t[2..], args[1..]))
      else Err(UnsupportedField)
    else if t[0] == '}' then
      if |t| >= 2 && t[1] == '}' then Prefixed("}", Format(t[2..], args)) else Err(SingleBrace)
    else Prefixed([t[0]], Format(t[1..], args))
  }

  /** The argument list `endpoint` builds: `quote(str(arg), safe='')` for each argument, in order. */
  function EncodeArgs(args: seq<Scalar>): (r: seq<string>)
    ensures |r| == |args|
    ensures forall i :: 0 <= i < |args| ==> r[i] == Safe(Str(args[i]))
  {
    if args == [] then [] else [Safe(Str(args[0]))] + EncodeArgs(args[1..])
  }

  /** `endpoint(path, *args)`: a path without braces comes back unchanged, whatever the arguments. */
  function Endpoint(path: string, args: seq<Scalar>): (r: Result<string, FormatError>)
    ensures '{' !in path && '}' !in path ==> r == Ok(path)
  {
    FormatLiteral(path, EncodeArgs(args));
    Format(path, EncodeArgs(args))
  }

  /** A template as a reader sees it: literal text and `{}` holes. */
  datatype Piece = Lit(text: string) | Hole

  /** Literal text written into a template, braces doubled. */
  function Escape(s: string): string {
    if s == [] then [] else EscapeChar(s[0]) + Escape(s[1..])
  }

  function EscapeChar(c: char): string {
    if c == '{' then "{{" else if c == '}' then "}}" else [c]
  }

  function Render(t: seq<Piece>): string {
    if t == [] then []
    else (match t[0] case Lit(s) => Escape(s) case Hole => "{}") + Render(t[1..])
  }

  function HoleCount(t: seq<Piece>): nat {
    if t == [] then 0 else (if t[0].Hole? then 1 else 0) + HoleCount(t[1..])
  }

  /** Reference meaning of a template: the literal text, with the i-th hole replaced by `vals[i]`. */
  function Fill(t: seq<Piece>, vals: seq<string>): string
    requires HoleCount(t) <= |vals|
  {
    if t == [] then []
    else match t[0]
      case Lit(s) => s + Fill(t[1..], vals)
      case Hole => vals[0] + Fill(t[1..], vals[1..])
  }

  lemma PrefixedPrefixed(a: string, b: string, r: Result<string, FormatError>)
    ensures Prefixed(a, Prefixed(b, r)) == Prefixed(a + b, r)
  {
    if r.Ok? { assert a + (b + r.value) == (a + b) + r.value; }
  }

  lemma FormatEscapeChar(c: char, u: string, args: seq<string>)
    ensures Format(EscapeChar(c) + u, args) == Prefixed([c], Format(u, args))
  {
    var t := EscapeChar(c) + u;
    if c == '{' {
      assert t[0] == '{' && t[1] == '{' && t[2..] == u;
    } else if c == '}' {
      assert t[0] == '}' && t[1] == '}' && t[2..] == u;
    } else {
      assert t[0] == c && t[1..] == u;
    }
  }

  lemma {:induction false} FormatEscape(s: string, rest: string, args: seq<string>)
    ensures Format(Escape(s) + rest, args) == Prefixed(s, Format(rest, args))
    decreases |s|
  {
    if s == [] {
      assert Escape(s) + rest == rest;
      var r := Format(rest, args);
      if r.Ok? { assert s + r.value == r.value; }
    } else {
      var u := Escape(s[1..]) + rest;
      assert Escape(s) + rest == EscapeChar(s[0]) + u;
      FormatEscapeChar(s[0], u, args);
      FormatEscape(s[1..], rest, args);
      PrefixedPrefixed([s[0]], s[1..], Format(rest, args));
      assert [s[0]] + s[1..] == s;
    }
  }

  /** Formatting a rendered template fills its holes in order and keeps its literal text. */
  lemma {:induction false} RenderFormats(t: seq<Piece>, vals: seq<string>)
    requires HoleCount(t) <= |vals|
    ensures Format(Render(t), vals) == Ok(Fill(t, vals))
  {
    if t == [] {
    } else {
      RenderFormats(t[1..], if t[0].Hole? then vals[1..] else vals);
      match t[0]
      case Lit(s) =>
        FormatEscape(s, Render(t[1..]), vals);
      case Hole =>
        var r := "{}" + Render(t[1..]);
        assert r[0] == '{' && r[1] == '}' && r[2..] == Render(t[1..]);
    }
  }

  /** With fewer arguments than holes, formatting raises IndexError. */
  lemma {:induction false} RenderTooFewArgs(t: seq<Piece>, vals: seq<string>)
    requires HoleCount(t) > |vals|
    ensures Format(Render(t), vals) == Err(IndexOutOfRange)
  {
    match t[0]
    case Lit(s) =>
      RenderTooFewArgs(t[1..], vals);
      FormatEscape(s, Render(t[1..]), vals);
    case Hole =>
      var r := "{}" + Render(t[1..]);
      assert r[0] == '{' && r[1] == '}' && r[2..] == Render(t[1..]);
      if vals != [] { RenderTooFewArgs(t[1..], vals[1..]); }
  }

  /** `endpoint(t, a1, ..., ak)` replaces the i-th hole by `safe(str(ai))` and keeps the literal text. */
  lemma EndpointFills(t: seq<Piece>, args: seq<Scalar>)
    ensures HoleCount(t) <= |args| ==> Endpoint(Render(t), args) == Ok(Fill(t, EncodeArgs(args)))
    ensures HoleCount(t) > |args| ==> Endpoint(Render(t), args) == Err(IndexOutOfRange)
  {
    if HoleCount(t) <= |args| { RenderFormats(t, EncodeArgs(args)); }
    else { RenderTooFewArgs(t, EncodeArgs(args)); }
  }

  /** A template without braces formats to itself. */
  lemma {:induction false} FormatLiteral(t: string, args: seq<string>)
    ensures '{' !in t && '}' !in t ==> Format(t, args) == Ok(t)
    decreases |t|
  {
    if t != [] && '{' !in t && '}' !in t {
      FormatLiteral(t[1..], args);
      assert [t[0]] + t[1..] == t;
    }
  }

  // ---------------------------------------------------------------------
  // `rotate(l, n=1)`: `l[n:] + l[:n]`, with Python's slice clamping.
  // ---------------------------------------------------------------------

  /** Where a Python slice bound `n` falls in a list of length `len`. */
  function SliceIndex(n: int, len: nat): (k: nat)
    ensures k <= len
    ensures 0 <= n <= len ==> k == n
    ensures -(len as int) <= n < 0 ==> k == len + n
    ensures n > len ==> k == len
    ensures n < -(len as int) ==> k == 0
  {
    if n < 0 then (if len + n < 0 then 0 else len + n)
    else if n > len then len
    else n
  }

  function Rotate<T>(l: seq<T>, n: int): (r: seq<T>)
    ensures |r| == |l|
    ensures multiset(r) == multiset(l)
  {
    var k := SliceIndex(n, |l|);
    assert l == l[..k] + l[k..];
    l[k..] + l[..k]
  }

  /** Element i of the rotated list is element i + n of the original, wrapping around at the end. */
  lemma RotateAt<T>(l: seq<T>, n: int, i: int)
    requires 0 <= n <= |l| && 0 <= i < |l|
    ensures Rotate(l, n)[i] == if i + n < |l| then l[i + n] else l[i + n - |l|]
  {
    assert Rotate(l, n) == l[n..] + l[..n];
  }

  lemma RotateIdentity<T>(l: seq<T>)
    ensures Rotate(l, 0) == l && Rotate(l, |l|) == l
  {
    assert l[0..] + l[..0] == l;
    assert l[|l|..] + l[..|l|] == l;
  }

  lemma RotateExample()
    ensures Rotate([1, 2, 3], 2) == [3, 1, 2]
  {
    assert [1, 2, 3][2..] == [3];
  }

  /** Rotating by n and then by |l| - n gives the list back. */
  lemma RotateInverse<T>(l: seq<T>, n: int)
    requires 0 <= n <= |l|
    ensures Rotate(Rotate(l, n), |l| - n) == l
  {
    var r := Rotate(l, n);
    assert r[..|l| - n] == l[n..];
    assert r[|l| - n..] == l[..n];
    assert l[..n] + l[n..] == l;
  }

  /** A negative count rotates the other way: `rotate(l, -m) == rotate(l, len(l) - m)`. */
  lemma RotateNegative<T>(l: seq<T>, m: int)
    requires 0 < m <= |l|
    ensures Rotate(l, -m) == Rotate(l, |l| - m)
  {
  }

  // ---------------------------------------------------------------------
  // `encode` and `urlify`.  `json.dumps(e, cls=CustomJSONEncoder)` is the
  // parameter `dumps`: the JSON text itself is outside the model.
  // ---------------------------------------------------------------------

  /** `encode(e)` on Python 3: the value itself. */
  function Encode(e: Value): (r: Value)
    ensures r == e
  {
    e
  }

  /** `urlify(e)`: no bool and no list is left at any depth, and a dict keeps exactly its keys. */
  function Urlify(e: Value, dumps: Value -> string): (r: Value)
    ensures IsUrlParam(r)
    ensures e.VDict? <==> r.VDict?
    ensures e.VDict? ==> r.entries.Keys == e.entries.Keys
  {
    match e
    case VDict(m) => VDict(map k | k in m :: Urlify(m[k], dumps))
    case VList(_) => VStr(dumps(e))
    case VBool(b) => VStr(if b then "true" else "false")
    case _ => Encode(e)
  }

  /** A dict keeps exactly its keys, each value urlified; the other cases convert or pass through. */
  lemma UrlifyCases(e: Value, dumps: Value -> string)
    ensures e.VDict? ==> Urlify(e, dumps).VDict? && Urlify(e, dumps).entries.Keys == e.entries.Keys
    ensures e.VDict? ==> forall k :: k in e.entries ==> Urlify(e, dumps).entries[k] == Urlify(e.entries[k], dumps)
    ensures e.VList? ==> Urlify(e, dumps) == VStr(dumps(e))
    ensures e == VBool(true) ==> Urlify(e, dumps) == VStr("true")
    ensures e == VBool(false) ==> Urlify(e, dumps) == VStr("false")
    ensures e.VNone? || e.VInt? || e.VStr? ==> Urlify(e, dumps) == e
  {
  }

  /** A value whose leaves are all strings, integers or None. */
  predicate IsUrlParam(v: Value) {
    match v
    case VDict(m) => forall k :: k in m ==> IsUrlParam(m[k])
    case VBool(_) => false
    case VList(_) => false
    case _ => true
  }

  lemma {:induction false} UrlifyKeepsUrlParam(v: Value, dumps: Value -> string)
    requires IsUrlParam(v)
    ensures Urlify(v, dumps) == v
  {
    match v
    case VDict(m) =>
      forall k | k in m ensures Urlify(m[k], dumps) == m[k] {
        UrlifyKeepsUrlParam(m[k], dumps);
      }
      assert (map k | k in m :: Urlify(m[k], dumps)) == m;
    case _ =>
  }

  /** `urlify` is idempotent. */
  lemma UrlifyIdempotent(e: Value, dumps: Value -> string)
    ensures Urlify(Urlify(e, dumps), dumps) == Urlify(e, dumps)
  {
    UrlifyKeepsUrlParam(Urlify(e, dumps), dumps);
  }

  /** `get_items(dictionary)`: no items for None, else the dictionary's (key, value) pairs. */
  function GetItems(dictionary: Option<map<string, Value>>): (r: set<(string, Value)>)
    ensures forall k, v :: (k, v) in r <==> dictionary.Some? && k in dictionary.value && dictionary.value[k] == v
  {
    if dictionary.None? then {} else set k | k in dictionary.value :: (k, dictionary.value[k])
  }
}
