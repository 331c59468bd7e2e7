/**
 * Sequence and string helpers that stand for the Python built-ins the bot
 * relies on: slicing (`s[:n]`, `s[-n:]`), `sep.join(parts)`, `"".join`,
 * `str(n)` on a non-negative integer, and `repr` of a string and of a list
 * of strings (what an f-string prints for a list).
 */
module Text {

  function Min(a: int, b: int): int { if a <= b then a else b }

  /** Python's `s[:n]` for `n >= 0`: the first `n` elements, or all of `s`. */
  function Prefix<T>(s: seq<T>, n: nat): (r: seq<T>)
    ensures |r| == Min(|s|, n)
    ensures r == s[..|r|]
    ensures |s| <= n ==> r == s
  {
    if |s| <= n then s else s[..n]
  }

  /** Python's `s[-n:]` for `n >= 1` (`s[-0:]` would be all of `s`): the
      last `n` elements, or all of `s`. */
  function KeepLast<T>(s: seq<T>, n: nat): (r: seq<T>)
    requires n >= 1
    ensures |r| == Min(|s|, n)
    ensures r == s[|s| - |r|..]
    ensures |s| <= n ==> r == s
  {
    if |s| <= n then s else s[|s| - n..]
  }

  /** The `k`-th kept element is the `k`-th of the last `n`. */
  lemma KeepLastIndex<T>(s: seq<T>, n: nat, k: nat)
    requires n >= 1 && k < |KeepLast(s, n)|
    ensures KeepLast(s, n)[k] == s[|s| - |KeepLast(s, n)| + k]
  {
  }

  /** Keeping the last `n` of a sequence and then appending more never loses
      anything the last `n` of the whole would keep. */
  lemma KeepLastAppend<T>(y: seq<T>, z: seq<T>, n: nat)
    requires n >= 1
    ensures KeepLast(KeepLast(y, n) + z, n) == KeepLast(y + z, n)
  {
    var y' := KeepLast(y, n);
    assert y' + z == (y + z)[|y| - |y'|..];
    var lhs := KeepLast(y' + z, n);
    var rhs := KeepLast(y + z, n);
    assert |lhs| == |rhs|;
    assert lhs == (y + z)[|y + z| - |lhs|..];
  }

  predicate EndsWith(s: string, suffix: string)
  {
    |suffix| <= |s| && s[|s| - |suffix|..] == suffix
  }

  /** Putting text in front keeps every suffix. */
  lemma EndsWithPrepend(x: string, y: string, a: string)
    requires EndsWith(y, a)
    ensures EndsWith(x + y, a)
  {
    assert (x + y)[|x + y| - |a|..] == y[|y| - |a|..];
  }

  /** Python's `sep.join(parts)`: empty for no parts, otherwise it begins
      with the first part and ends with the last. */
  function Join(sep: string, parts: seq<string>): (r: string)
    ensures |parts| == 0 ==> r == ""
    ensures |parts| >= 1 ==> parts[0] <= r && EndsWith(r, parts[|parts| - 1])
  {
    if |parts| == 0 then ""
    else if |parts| == 1 then parts[0]
    else
      var rest := Join(sep, parts[1..]);
      EndsWithPrepend(parts[0] + sep, rest, parts[|parts| - 1]);
      parts[0] + sep + rest
  }

  /** No `\n` or `\r` anywhere in `s`. */
  predicate OneLine(s: string)
  {
    forall i :: 0 <= i < |s| ==> s[i] != '\n' && s[i] != '\r'
  }

  lemma OneLineCat(a: string, b: string)
    requires OneLine(a) && OneLine(b)
    ensures OneLine(a + b)
  {
    forall i | 0 <= i < |a + b|
      ensures (a + b)[i] != '\n' && (a + b)[i] != '\r'
    {
      if i >= |a| { assert (a + b)[i] == b[i - |a|]; }
    }
  }

  /** Joining one-line parts with a one-line separator gives one line. */
  lemma {:induction false} JoinOneLine(sep: string, parts: seq<string>)
    requires OneLine(sep) && forall i :: 0 <= i < |parts| ==> OneLine(parts[i])
    ensures OneLine(Join(sep, parts))
  {
    if |parts| >= 2 {
      JoinOneLine(sep, parts[1..]);
      assert OneLine(parts[0]);
      OneLineCat(parts[0], sep);
      OneLineCat(parts[0] + sep, Join(sep, parts[1..]));
    } else if |parts| == 1 {
      assert OneLine(parts[0]);
    }
  }

  /** Appending one more part adds the separator and that part at the end. */
  lemma {:induction false} JoinSnoc(sep: string, parts: seq<string>, last: string)
    ensures Join(sep, parts + [last]) == if parts == [] then last else Join(sep, parts) + sep + last
  {
    if |parts| >= 2 {
      assert (parts + [last])[1..] == parts[1..] + [last];
      JoinSnoc(sep, parts[1..], last);
    } else if |parts| == 1 {
      assert (parts + [last])[1..] == [last];
    }
  }

  /** Extending a sequence at the end extends every suffix of it alike. */
  lemma EndsWithAppend(x: string, a: string, y: string)
    requires EndsWith(x, a)
    ensures EndsWith(x + y, a + y)
  {
    assert (x + y)[|x| - |a|..] == x[|x| - |a|..] + y;
  }

  /** A join of two or more parts ends with its last two parts and the
      separator between them. */
  lemma JoinEndsWith(sep: string, parts: seq<string>)
    requires |parts| >= 2
    ensures EndsWith(Join(sep, parts), sep + parts[|parts| - 1])
    ensures EndsWith(Join(sep, parts), parts[|parts| - 2] + sep + parts[|parts| - 1])
  {
    var init := parts[..|parts| - 1];
    var last := parts[|parts| - 1];
    assert parts == init + [last];
    JoinSnoc(sep, init, last);
    var j := Join(sep, init);
    var a := parts[|parts| - 2];
    AppendAssoc(j, sep, last);
    AppendAssoc(a, sep, last);
    EndsWithAppend(j, a, sep + last);
    EndsWithAppend(j, [], sep + last);
  }

  lemma AppendAssoc<T>(a: seq<T>, b: seq<T>, c: seq<T>)
    ensures (a + b) + c == a + (b + c)
  {
  }

  /** Python's `"".join(parts)`. */
  function Concat(parts: seq<string>): (r: string)
    ensures |parts| == 0 ==> r == ""
    ensures |parts| >= 1 ==> parts[0] <= r
    ensures |parts| == 1 ==> r == parts[0]
  {
    if parts == [] then "" else parts[0] + Concat(parts[1..])
  }

  lemma {:induction false} ConcatSnoc(parts: seq<string>, last: string)
    ensures Concat(parts + [last]) == Concat(parts) + last
  {
    if parts != [] {
      assert (parts + [last])[1..] == parts[1..] + [last];
      ConcatSnoc(parts[1..], last);
    }
  }

  function DigitChar(d: nat): char
    requires d < 10
  {
    (48 + d) as char
  }

  predicate IsDigit(c: char) { '0' <= c <= '9' }

  /** Python's `str(n)` for `n >= 0`: decimal digits without leading zeros. */
  function NatToString(n: nat): (s: string)
    ensures 1 <= |s|
    ensures forall i :: 0 <= i < |s| ==> IsDigit(s[i])
    ensures s[0] == '0' ==> n == 0 && s == "0"
    decreases n
  {
    if n < 10 then [DigitChar(n)] else NatToString(n / 10) + [DigitChar(n % 10)]
  }

  /** The value a string of decimal digits denotes (Python's `int(s)`). */
  function DecimalValue(s: string): nat
    requires forall i :: 0 <= i < |s| ==> IsDigit(s[i])
  {
    if s == [] then 0
    else
      assert IsDigit(s[|s| - 1]);
      DecimalValue(s[..|s| - 1]) * 10 + (s[|s| - 1] as int - 48)
  }

  /** Printing an interaction counter and reading it back gives the counter. */
  lemma {:induction false} DecimalRoundTrip(n: nat)
    ensures DecimalValue(NatToString(n)) == n
  {
    if n >= 10 {
      var s := NatToString(n);
      assert s[..|s| - 1] == NatToString(n / 10);
      DecimalRoundTrip(n / 10);
    }
  }

  function HexDigit(d: nat): char
    requires d < 16
  {
    if d < 10 then DigitChar(d) else (87 + d) as char
  }

  /** The quote Python's `repr` puts around `s`: double quotes when `s`
      holds a single quote and no double quote, single quotes otherwise. */
  function QuoteFor(s: string): (q: char)
    ensures q == '\'' || q == '"'
    ensures q in s ==> '\'' in s && '"' in s
  {
    if '\'' in s && '"' !in s then '"' else '\''
  }

  /** How Python's `repr` writes one character inside a string literal
      delimited by `quote`. */
  function EscapeChar(c: char, quote: char): (r: string)
    requires quote == '\'' || quote == '"'
    ensures 1 <= |r|
    ensures OneLine(r)
  {
    if c == '\\' then "\\\\"
    else if c == quote then ['\\', quote]
    else if c == '\n' then "\\n"
    else if c == '\r' then "\\r"
    else if c == '\t' then "\\t"
    else if c < ' ' || c == '\U{7F}' then ['\\', 'x', HexDigit(c as int / 16), HexDigit(c as int % 16)]
    else [c]
  }

  function Escaped(s: string, quote: char): (r: string)
    requires quote == '\'' || quote == '"'
    ensures |s| <= |r|
    ensures OneLine(r)
  {
    if s == [] then "" else EscapeChar(s[0], quote) + Escaped(s[1..], quote)
  }

  /** Python's `repr(s)` for a string: a quoted literal on one line. */
  function StrRepr(s: string): (r: string)
    ensures 2 + |s| <= |r|
    ensures r[0] == r[|r| - 1] == QuoteFor(s)
    ensures OneLine(r)
  {
    [QuoteFor(s)] + Escaped(s, QuoteFor(s)) + [QuoteFor(s)]
  }

  function StrReprs(xs: seq<string>): (rs: seq<string>)
    ensures |rs| == |xs|
    ensures forall i :: 0 <= i < |xs| ==> rs[i] == StrRepr(xs[i])
  {
    seq(|xs|, i requires 0 <= i < |xs| => StrRepr(xs[i]))
  }

  /** `body` between square brackets. */
  function Bracketed(body: string): (r: string)
    requires OneLine(body)
    ensures |r| == |body| + 2 && r[0] == '[' && r[|r| - 1] == ']'
    ensures r[1..|r| - 1] == body
    ensures OneLine(r)
  {
    var r := ['['] + body + [']'];
    assert r[1..|r| - 1] == body;
    OneLineCat(['['], body);
    OneLineCat(['['] + body, [']']);
    r
  }

  /** Python's `repr` of a list of strings (`['a', 'b']`): one line. */
  function ListRepr(xs: seq<string>): (r: string)
    ensures OneLine(r)
  {
    var items := StrReprs(xs);
    JoinOneLine(", ", items);
    Bracketed(Join(", ", items))
  }

  /** The list literal is bracketed, is `[]` for no questions, and shows
      the first question's literal right after the opening bracket. */
  lemma ListReprShape(xs: seq<string>)
    ensures var r := ListRepr(xs); 2 <= |r| && r[0] == '[' && r[|r| - 1] == ']'
    ensures xs == [] ==> ListRepr(xs) == "[]"
    ensures |xs| >= 1 ==> StrRepr(xs[0]) <= ListRepr(xs)[1..]
  {
    var body := Join(", ", StrReprs(xs));
    var r := ListRepr(xs);
    assert r == Bracketed(body);
    assert r[1..|r| - 1] == body;
  }
}
