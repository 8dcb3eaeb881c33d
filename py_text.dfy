/** The Python string operations the repair jobs and the connectors use to
    build text: `sep.join`, `str.split` on one character, `str(int)`,
    `'"{0}"'.format`, `str.format` with one `{}` placeholder and
    `str.replace(c, '')`. */
module PyText {

  /** `sep.join(parts)`. */
  function Join(sep: string, parts: seq<string>): string
    decreases |parts|
  {
    if parts == [] then ""
    else if |parts| == 1 then parts[0]
    else parts[0] + sep + Join(sep, parts[1..])
  }

  /** `s.split(c)`: the pieces between occurrences of `c`; `n` occurrences
      give `n + 1` pieces, so the empty text gives `[""]`. */
  function Split(s: string, c: char): (r: seq<string>)
    ensures |r| >= 1
  {
    if s == [] then [""]
    else if s[0] == c then [""] + Split(s[1..], c)
    else
      var rest := Split(s[1..], c);
      [[s[0]] + rest[0]] + rest[1..]
  }

  lemma {:induction false} SplitPiece(a: string, c: char, b: string)
    requires c !in a
    ensures Split(a + [c] + b, c) == [a] + Split(b, c)
    decreases |a|
  {
    if a == [] {
      assert a + [c] + b == [c] + b;
      assert ([c] + b)[1..] == b;
    } else {
      var t := a + [c] + b;
      assert t[0] == a[0] && t[0] != c;
      assert t[1..] == a[1..] + [c] + b;
      SplitPiece(a[1..], c, b);
      assert [a[0]] + a[1..] == a;
    }
  }

  lemma {:induction false} SplitWhole(a: string, c: char)
    requires c !in a
    ensures Split(a, c) == [a]
    decreases |a|
  {
    if a != [] {
      SplitWhole(a[1..], c);
      assert [a[0]] + a[1..] == a;
    }
  }

  /** Splitting a joined list at the separator gives the list back, as long
      as no part contains the separator and the list is not empty. */
  lemma {:induction false} SplitJoin(parts: seq<string>, c: char)
    requires |parts| >= 1
    requires forall i :: 0 <= i < |parts| ==> c !in parts[i]
    ensures Split(Join([c], parts), c) == parts
    decreases |parts|
  {
    if |parts| == 1 {
      SplitWhole(parts[0], c);
    } else {
      SplitJoin(parts[1..], c);
      SplitPiece(parts[0], c, Join([c], parts[1..]));
    }
  }

  /** `'"{0}"'.format(w)` for a value whose text is `w`. */
  function Quote(w: string): string {
    "\"" + w + "\""
  }

  function QuoteAll(ws: seq<string>): (r: seq<string>)
    ensures |r| == |ws| && forall i :: 0 <= i < |ws| ==> r[i] == Quote(ws[i])
  {
    seq(|ws|, i requires 0 <= i < |ws| => Quote(ws[i]))
  }

  /** `','.join('"{0}"'.format(w) for w in ws)`. */
  function QuoteJoin(ws: seq<string>): string {
    Join(",", QuoteAll(ws))
  }

  /** The quoted, comma-joined id list splits back at its commas into exactly
      the quoted ids in their original order, when no id contains a comma. */
  lemma QuoteJoinSplit(ws: seq<string>)
    requires |ws| >= 1
    requires forall i :: 0 <= i < |ws| ==> ',' !in ws[i]
    ensures Split(QuoteJoin(ws), ',') == QuoteAll(ws)
  {
    var q := QuoteAll(ws);
    forall i | 0 <= i < |q| ensures ',' !in q[i] {
      assert q[i] == ['"'] + ws[i] + ['"'];
    }
    SplitJoin(q, ',');
  }

  /** An empty id list joins to the empty text, which splits into one empty
      piece rather than none. */
  lemma QuoteJoinEmpty()
    ensures QuoteJoin([]) == "" && Split(QuoteJoin([]), ',') == [""]
  {
  }

  function DecimalDigit(n: int): char
    requires 0 <= n <= 9
  {
    ('0' as int + n) as char
  }

  /** The decimal digits of `n`, most significant first. */
  function NatDigits(n: nat): (r: string)
    ensures |r| >= 1 && forall i :: 0 <= i < |r| ==> '0' <= r[i] <= '9'
  {
    if n < 10 then [DecimalDigit(n)] else NatDigits(n / 10) + [DecimalDigit(n % 10)]
  }

  /** Reads a text of decimal digits as a number. */
  function DigitsValue(s: string): int {
    if s == [] then 0 else DigitsValue(s[..|s| - 1]) * 10 + (s[|s| - 1] as int - '0' as int)
  }

  lemma {:induction false} NatDigitsValue(n: nat)
    ensures DigitsValue(NatDigits(n)) == n
  {
    if n >= 10 {
      NatDigitsValue(n / 10);
      var r := NatDigits(n);
      assert r[..|r| - 1] == NatDigits(n / 10);
    }
  }

  /** `str(i)` for an `int`. */
  function Decimal(i: int): (r: string)
    ensures ',' !in r && '\n' !in r && '\t' !in r
  {
    if i < 0 then "-" + NatDigits(-i) else NatDigits(i)
  }

  /** Reads an optionally signed decimal text as an integer (`int(s)`). */
  function ReadDecimal(s: string): int {
    if |s| > 0 && s[0] == '-' then -DigitsValue(s[1..]) else DigitsValue(s)
  }

  /** `str(i)` is read back as `i`: no two integers have the same text. */
  lemma DecimalReadsBack(i: int)
    ensures ReadDecimal(Decimal(i)) == i
  {
    if i < 0 {
      NatDigitsValue(-i);
      assert Decimal(i)[1..] == NatDigits(-i);
    } else {
      NatDigitsValue(i);
    }
  }

  /** Whether `"{}"` occurs in `t`. */
  predicate HasPlaceholder(t: string) {
    exists i :: 0 <= i < |t| - 1 && t[i] == '{' && t[i + 1] == '}'
  }

  /** `t.format(a)` for a template whose only braces are one `{}`: the first
      `{}` is replaced by `a`. Escaped braces, numbered or named fields and
      a second `{}` are outside what this models. */
  function FormatOne(t: string, a: string): string
    decreases |t|
  {
    if |t| < 2 then t
    else if t[0] == '{' && t[1] == '}' then a + t[2..]
    else [t[0]] + FormatOne(t[1..], a)
  }

  /** `format` returns a template with no braces at all unchanged. */
  lemma {:induction false} FormatOneNoBraces(t: string, a: string)
    requires '{' !in t && '}' !in t
    ensures FormatOne(t, a) == t
    decreases |t|
  {
    if |t| >= 2 {
      assert t[0] in t;
      assert forall c :: c in t[1..] ==> c in t;
      FormatOneNoBraces(t[1..], a);
    }
  }

  /** With the placeholder after a placeholder-free prefix, the argument's
      text lands exactly between that prefix and the rest. */
  lemma {:induction false} FormatOneSplices(pre: string, post: string, a: string)
    requires !HasPlaceholder(pre)
    ensures FormatOne(pre + "{}" + post, a) == pre + a + post
    decreases |pre|
  {
    var t := pre + "{}" + post;
    if pre == [] {
      assert t == "{}" + post;
      assert t[2..] == post;
    } else {
      var rest := pre[1..];
      assert t == [pre[0]] + (rest + "{}" + post);
      assert t[1..] == rest + "{}" + post;
      assert t[1] == (if rest == [] then '{' else rest[0]);
      if rest != [] {
        assert !(pre[0] == '{' && pre[1] == '}');
      }
      forall i | 0 <= i < |rest| - 1
        ensures !(rest[i] == '{' && rest[i + 1] == '}')
      {
        assert rest[i] == pre[i + 1] && rest[i + 1] == pre[i + 2];
      }
      FormatOneSplices(rest, post, a);
      assert [pre[0]] + (rest + a + post) == pre + a + post;
    }
  }

  /** `s.replace(c, '')`. */
  function Remove(s: string, c: char): (r: string)
    ensures c !in r
    ensures forall x :: x != c ==> (x in r <==> x in s)
  {
    if s == [] then []
    else if s[0] == c then Remove(s[1..], c)
    else [s[0]] + Remove(s[1..], c)
  }

  lemma {:induction false} RemoveAbsent(s: string, c: char)
    requires c !in s
    ensures Remove(s, c) == s
  {
    if s != [] {
      RemoveAbsent(s[1..], c);
    }
  }

  lemma {:induction false} RemoveConcat(a: string, b: string, c: char)
    ensures Remove(a + b, c) == Remove(a, c) + Remove(b, c)
    decreases |a|
  {
    if a == [] {
      assert a + b == b;
    } else {
      assert (a + b)[0] == a[0];
      assert (a + b)[1..] == a[1..] + b;
      RemoveConcat(a[1..], b, c);
      assert Remove(a + b, c) == if a[0] == c then Remove(a[1..] + b, c) else [a[0]] + Remove(a[1..] + b, c);
      assert Remove(a, c) == if a[0] == c then Remove(a[1..], c) else [a[0]] + Remove(a[1..], c);
      if a[0] != c {
        assert [a[0]] + (Remove(a[1..], c) + Remove(b, c)) == ([a[0]] + Remove(a[1..], c)) + Remove(b, c);
      }
    }
  }
}
