/**
  The few pieces of Python's value model that the ingestion scripts rely on:
  dynamically typed values, str() of a value, the decimal text of an int,
  and str.join.
*/
module Python {
  import opened Base

  /**
    A Python value as this model sees it: None, a bool, an int, a str, or any
    other object (a float, a list, a dict, a nested tuple, ...), which the model
    does not interpret and carries by the text that str() gives for it.
  */
  datatype Value = PyNone | Bool(b: bool) | Int(i: int) | Str(s: string) | Other(shown: string)

  predicate IsDigit(c: char) { '0' <= c <= '9' }

  predicate AllDigits(s: string) { forall k :: 0 <= k < |s| ==> IsDigit(s[k]) }

  function Digit(d: nat): (c: char)
    requires d < 10
    ensures IsDigit(c) && c as int - '0' as int == d
  {
    ('0' as int + d) as char
  }

  /** Decimal digits of n, most significant first. */
  function NatText(n: nat): (s: string)
    ensures |s| > 0 && AllDigits(s)
  {
    if n < 10 then [Digit(n)] else NatText(n / 10) + [Digit(n % 10)]
  }

  /** The number a string of decimal digits denotes (the inverse of NatText). */
  function DigitsValue(s: string): nat
    requires AllDigits(s)
  {
    if s == [] then 0 else DigitsValue(s[..|s| - 1]) * 10 + (s[|s| - 1] as int - '0' as int)
  }

  lemma {:induction false} NatTextRoundTrip(n: nat)
    ensures DigitsValue(NatText(n)) == n
  {
    if n >= 10 {
      var s := NatText(n);
      assert s[..|s| - 1] == NatText(n / 10);
      NatTextRoundTrip(n / 10);
    }
  }

  /** str(i) for an int i: a minus sign for negatives, then the digits of |i|. */
  function IntText(i: int): (s: string)
  {
    if i < 0 then "-" + NatText(-i) else NatText(i)
  }

  /** The shape of str(i): never empty, signed exactly when i is negative, and
      free of the separators a fingerprint uses after its first character. */
  lemma IntTextShape(i: int)
    ensures |IntText(i)| > 0
    ensures IntText(i)[0] == '-' <==> i < 0
    ensures '-' !in IntText(i)[1..] && '_' !in IntText(i)
  {
    var s := IntText(i);
    var m: nat := if i < 0 then -i else i;
    var d := NatText(m);
    assert IsDigit(d[0]);
    assert forall k :: 0 <= k < |d| ==> d[k] != '-' && d[k] != '_';
    if i < 0 {
      assert s[1..] == d;
    } else {
      assert s == d;
    }
  }

  /** Two ints with the same str() are equal. */
  lemma IntTextInjective(a: int, b: int)
    requires IntText(a) == IntText(b)
    ensures a == b
  {
    IntTextShape(a);
    IntTextShape(b);
    var ma: nat := if a < 0 then -a else a;
    var mb: nat := if b < 0 then -b else b;
    if a < 0 {
      assert NatText(ma) == IntText(a)[1..] == IntText(b)[1..] == NatText(mb);
    } else {
      assert NatText(ma) == NatText(mb);
    }
    NatTextRoundTrip(ma);
    NatTextRoundTrip(mb);
  }

  /** str(v), Python's informal text of a value. */
  function Show(v: Value): string
  {
    match v
    case PyNone => "None"
    case Bool(b) => if b then "True" else "False"
    case Int(i) => IntText(i)
    case Str(s) => s
    case Other(t) => t
  }

  /** sep.join(xs) for a one-character separator. */
  function Join(sep: char, xs: seq<string>): string
  {
    if |xs| == 0 then "" else if |xs| == 1 then xs[0] else xs[0] + [sep] + Join(sep, xs[1..])
  }

  /** In a + [sep] + b with sep not in a, the first separator sits right after a. */
  lemma FirstSeparator(sep: char, a: string, b: string)
    requires sep !in a
    ensures (a + [sep] + b)[|a|] == sep
    ensures forall k :: 0 <= k < |a| ==> (a + [sep] + b)[k] != sep
  {
    assert forall k :: 0 <= k < |a| ==> (a + [sep] + b)[k] == a[k];
  }

  /** Two texts cut at their first separator agree on both halves. */
  lemma SplitAtSeparator(sep: char, a: string, b: string, a2: string, b2: string)
    requires a + [sep] + b == a2 + [sep] + b2
    requires sep !in a && sep !in a2
    ensures a == a2 && b == b2
  {
    var s := a + [sep] + b;
    FirstSeparator(sep, a, b);
    FirstSeparator(sep, a2, b2);
    if |a| != |a2| {
      assert false;
    }
    assert a == s[..|a|] == a2;
    assert b == s[|a| + 1..] == b2;
  }

  /** Joining a concatenation joins the parts, with one separator between them when both are non-empty. */
  lemma {:induction false} JoinAppend(sep: char, a: seq<string>, b: seq<string>)
    ensures Join(sep, a + b) == Join(sep, a) + (if a != [] && b != [] then [sep] else []) + Join(sep, b)
  {
    if a == [] {
      assert a + b == b;
    } else if |a| == 1 {
      if b != [] {
        assert (a + b)[1..] == b;
      } else {
        assert a + b == a;
      }
    } else {
      assert (a + b)[1..] == a[1..] + b;
      JoinAppend(sep, a[1..], b);
    }
  }

  lemma {:induction false} JoinNonEmpty(sep: char, xs: seq<string>)
    requires xs != [] && xs[0] != []
    ensures Join(sep, xs) != []
  {
  }

  /** When no element is empty or holds the separator, the joined text determines the sequence. */
  lemma {:induction false} JoinInjective(sep: char, xs: seq<string>, ys: seq<string>)
    requires forall k :: 0 <= k < |xs| ==> xs[k] != [] && sep !in xs[k]
    requires forall k :: 0 <= k < |ys| ==> ys[k] != [] && sep !in ys[k]
    requires Join(sep, xs) == Join(sep, ys)
    ensures xs == ys
  {
    if xs == [] || ys == [] {
      if xs != [] {
        JoinNonEmpty(sep, xs);
      }
      if ys != [] {
        JoinNonEmpty(sep, ys);
      }
    } else if |xs| == 1 && |ys| == 1 {
    } else if |xs| == 1 {
      assert false;
    } else if |ys| == 1 {
      assert false;
    } else {
      SplitAtSeparator(sep, xs[0], Join(sep, xs[1..]), ys[0], Join(sep, ys[1..]));
      JoinInjective(sep, xs[1..], ys[1..]);
      assert xs == [xs[0]] + xs[1..];
      assert ys == [ys[0]] + ys[1..];
    }
  }

  /** The text a join puts before an element that follows the elements pre. */
  function JoinedBefore(sep: char, pre: seq<string>): string
  {
    if pre == [] then "" else Join(sep, pre) + [sep]
  }

  /** The text a join puts after an element that the elements post follow. */
  function JoinedAfter(sep: char, post: seq<string>): string
  {
    if post == [] then "" else [sep] + Join(sep, post)
  }

  lemma JoinAround(sep: char, pre: seq<string>, x: string, post: seq<string>)
    ensures Join(sep, pre + [x] + post) == JoinedBefore(sep, pre) + x + JoinedAfter(sep, post)
  {
    var a, b := Join(sep, pre), Join(sep, post);
    var s1: string := if pre != [] then [sep] else [];
    var s2: string := if post != [] then [sep] else [];
    assert pre + [x] + post == pre + ([x] + post);
    JoinAppend(sep, pre, [x] + post);
    JoinAppend(sep, [x], post);
    assert JoinedBefore(sep, pre) == a + s1 && JoinedAfter(sep, post) == s2 + b;
    AppendTwice(a + s1, x, s2 + b);
    AppendTwice(x, s2, b);
  }

  lemma MiddleCancel(p: string, x: string, y: string, q: string)
    requires p + x + q == p + y + q
    ensures x == y
  {
    var s := p + x + q;
    assert |x| == |y|;
    assert x == s[|p|..|p| + |x|];
    assert y == (p + y + q)[|p|..|p| + |y|];
  }

  /** Changing exactly one element changes the joined text, whatever the elements hold. */
  lemma JoinOneChanged(sep: char, xs: seq<string>, ys: seq<string>, k: nat)
    requires |xs| == |ys| && k < |xs|
    requires forall j :: 0 <= j < |xs| && j != k ==> xs[j] == ys[j]
    requires xs[k] != ys[k]
    ensures Join(sep, xs) != Join(sep, ys)
  {
    var pre, post := xs[..k], xs[k + 1..];
    assert ys[..k] == pre && ys[k + 1..] == post;
    assert xs == pre + [xs[k]] + post;
    assert ys == pre + [ys[k]] + post;
    JoinAround(sep, pre, xs[k], post);
    JoinAround(sep, pre, ys[k], post);
    if Join(sep, xs) == Join(sep, ys) {
      MiddleCancel(JoinedBefore(sep, pre), xs[k], ys[k], JoinedAfter(sep, post));
    }
  }
}
