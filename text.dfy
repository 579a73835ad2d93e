/**
 * The JavaScript string operations the app relies on, restricted to what its
 * inputs need: `split` on a one-character separator, `toUpperCase` on ASCII,
 * `replace` of the first occurrence of a character, `join`, and the decimal
 * text of integers (`toString`, `Number`).
 */
module Text {
  import opened Wrappers

  // ---------------------------------------------------------------------------
  // split

  /** Concatenation of `fields` with `sep` between neighbours (the inverse of Split). */
  function JoinChar(fields: seq<string>, sep: char): string
    requires |fields| >= 1
    decreases |fields|
  {
    if |fields| == 1 then fields[0] else fields[0] + [sep] + JoinChar(fields[1..], sep)
  }

  /** `s.split(sep)`: the maximal runs between separators, always at least one field. */
  function Split(s: string, sep: char): (fields: seq<string>)
    ensures |fields| >= 1
    ensures forall i :: 0 <= i < |fields| ==> sep !in fields[i]
    ensures JoinChar(fields, sep) == s
    decreases |s|
  {
    if s == [] then [""]
    else
      var rest := Split(s[1..], sep);
      if s[0] == sep then
        assert JoinChar([""] + rest, sep) == [sep] + JoinChar(rest, sep) by {
          assert ([""] + rest)[1..] == rest;
        }
        [""] + rest
      else
        var first := [s[0]] + rest[0];
        assert JoinChar([first] + rest[1..], sep) == [s[0]] + JoinChar(rest, sep) by {
          if |rest| > 1 {
            assert ([first] + rest[1..])[1..] == rest[1..];
          }
        }
        [first] + rest[1..]
  }

  /** `s.split(sep)[1]`: absent (JavaScript's `undefined`) when `s` has no separator. */
  function SecondField(s: string, sep: char): Option<string>
  {
    var fields := Split(s, sep);
    if |fields| > 1 then Some(fields[1]) else None
  }

  /** A string without the separator splits into itself alone. */
  lemma {:induction false} SplitNoSeparator(s: string, sep: char)
    requires sep !in s
    ensures Split(s, sep) == [s]
    decreases |s|
  {
    if s != [] {
      assert sep !in s[1..] by {
        forall k | 0 <= k < |s[1..]| ensures s[1..][k] != sep { assert s[1..][k] == s[k + 1]; }
      }
      SplitNoSeparator(s[1..], sep);
      assert [s[0]] + s[1..] == s;
    }
  }

  /** Splitting `p + sep + q` where `p` has no separator yields `p`, then the fields of `q`. */
  lemma {:induction false} SplitAtFirst(p: string, sep: char, q: string)
    requires sep !in p
    ensures Split(p + [sep] + q, sep) == [p] + Split(q, sep)
    decreases |p|
  {
    var s := p + [sep] + q;
    if p == [] {
      assert s[1..] == q;
    } else {
      assert s[1..] == p[1..] + [sep] + q;
      assert sep !in p[1..] by {
        forall k | 0 <= k < |p[1..]| ensures p[1..][k] != sep { assert p[1..][k] == p[k + 1]; }
      }
      SplitAtFirst(p[1..], sep, q);
      assert [p[0]] + p[1..] == p;
    }
  }

  /** The second field is exactly the text between the first and (if any) the second separator. */
  lemma SecondFieldAfterFirst(p: string, sep: char, q: string)
    requires sep !in p
    ensures SecondField(p + [sep] + q, sep) == Some(Split(q, sep)[0])
    ensures sep !in q ==> SecondField(p + [sep] + q, sep) == Some(q)
  {
    SplitAtFirst(p, sep, q);
    if sep !in q { SplitNoSeparator(q, sep); }
  }

  /** A string without the separator has no second field. */
  lemma SecondFieldAbsent(s: string, sep: char)
    requires sep !in s
    ensures SecondField(s, sep) == None
  {
    SplitNoSeparator(s, sep);
  }

  // ---------------------------------------------------------------------------
  // toUpperCase and replace

  /** Upper case of one character; only the ASCII letters a-z change. */
  function UpperChar(c: char): (u: char)
    ensures 'a' <= c <= 'z' ==> u as int == c as int - 32
    ensures !('a' <= c <= 'z') ==> u == c
  {
    if 'a' <= c <= 'z' then (c as int - 32) as char else c
  }

  /** `s.toUpperCase()` restricted to the ASCII case mapping, character by character. */
  function ToUpper(s: string): (u: string)
    ensures |u| == |s|
    ensures forall i :: 0 <= i < |s| ==> u[i] == UpperChar(s[i])
  {
    seq(|s|, i requires 0 <= i < |s| => UpperChar(s[i]))
  }

  /** The position of the first occurrence of `c` in `s`. */
  function FirstIndex(s: string, c: char): (i: nat)
    requires c in s
    ensures i < |s| && s[i] == c
    ensures c !in s[..i]
    decreases |s|
  {
    if s[0] == c then 0
    else
      var j := FirstIndex(s[1..], c);
      assert s[..j + 1] == [s[0]] + s[1..][..j];
      j + 1
  }

  /** `s.replace(c, "")` for a one-character pattern: the first occurrence of `c` is removed. */
  function RemoveFirst(s: string, c: char): (r: string)
    ensures c !in s ==> r == s
    ensures c in s ==> exists i :: 0 <= i < |s| && s[i] == c && c !in s[..i] && r == s[..i] + s[i + 1..]
    ensures c in s ==> |r| == |s| - 1 && multiset(r) + multiset{c} == multiset(s)
  {
    if c in s then
      var i := FirstIndex(s, c);
      assert s == s[..i] + [s[i]] + s[i + 1..];
      s[..i] + s[i + 1..]
    else s
  }

  /** `s || fallback` for a string: the empty string is falsy. */
  function OrElse(s: string, fallback: string): string
  {
    if s == "" then fallback else s
  }

  /** A leading occurrence is the one removed. */
  lemma RemoveFirstAtFront(c: char, s: string)
    ensures RemoveFirst([c] + s, c) == s
  {
    assert FirstIndex([c] + s, c) == 0;
  }

  // ---------------------------------------------------------------------------
  // join

  /** `parts.join(sep)` with a string separator; `[].join(sep)` is the empty string. */
  function Join(parts: seq<string>, sep: string): string
    decreases |parts|
  {
    if parts == [] then ""
    else if |parts| == 1 then parts[0]
    else parts[0] + sep + Join(parts[1..], sep)
  }

  /** A join is empty only when every part is empty and there is at most one part or an empty separator. */
  lemma {:induction false} JoinNonEmpty(parts: seq<string>, sep: string)
    requires |parts| >= 1
    requires parts[0] != "" || (|parts| > 1 && sep != "")
    ensures Join(parts, sep) != ""
  {
    if |parts| > 1 {
      assert |Join(parts, sep)| >= |parts[0]| + |sep|;
    }
  }

  // ---------------------------------------------------------------------------
  // decimal text

  predicate IsDigit(c: char) { '0' <= c <= '9' }

  function DigitChar(d: nat): (c: char)
    requires d < 10
    ensures IsDigit(c)
  {
    ('0' as int + d) as char
  }

  function DigitValue(c: char): (d: nat)
    requires IsDigit(c)
    ensures d < 10
  {
    c as int - '0' as int
  }

  /** `n.toString()` for a natural number: its decimal digits, no leading zero. */
  function NatText(n: nat): (s: string)
    ensures |s| >= 1
    ensures forall i :: 0 <= i < |s| ==> IsDigit(s[i])
    ensures |s| > 1 ==> s[0] != '0'
    decreases n
  {
    if n < 10 then [DigitChar(n)] else NatText(n / 10) + [DigitChar(n % 10)]
  }

  /** `n.toString()` for an integer: a minus sign before the digits of a negative number. */
  function IntText(n: int): (s: string)
    ensures |s| >= 1
  {
    if n < 0 then "-" + NatText(-n) else NatText(n)
  }

  /** The value of a run of decimal digits, most significant first. */
  function DecimalValue(s: string): nat
    requires forall i :: 0 <= i < |s| ==> IsDigit(s[i])
    decreases |s|
  {
    if s == [] then 0 else DecimalValue(s[..|s| - 1]) * 10 + DigitValue(s[|s| - 1])
  }

  /** Reading back the digits of `n` gives `n`. */
  lemma {:induction false} DecimalValueNatText(n: nat)
    ensures DecimalValue(NatText(n)) == n
    decreases n
  {
    var s := NatText(n);
    if n >= 10 {
      DecimalValueNatText(n / 10);
      assert s[..|s| - 1] == NatText(n / 10);
    }
  }

  predicate AllDigits(s: string) { forall i :: 0 <= i < |s| ==> IsDigit(s[i]) }

  /**
   * `Number(s)` restricted to plain decimal integers: the empty string is 0,
   * otherwise an optional minus sign and at least one digit. `None` stands for
   * NaN and for numerals outside that grammar.
   */
  function NumberValue(s: string): (r: Option<int>)
    ensures s == "" ==> r == Some(0)
    ensures AllDigits(s) && s != "" ==> r == Some(DecimalValue(s))
  {
    if s == [] then Some(0)
    else if s[0] == '-' && |s| > 1 && AllDigits(s[1..]) then Some(-(DecimalValue(s[1..]) as int))
    else if AllDigits(s) then Some(DecimalValue(s))
    else None
  }

  /** `Number(n.toString()) == n` for every natural number. */
  lemma NumberOfNatText(n: nat)
    ensures NumberValue(NatText(n)) == Some(n)
  {
    DecimalValueNatText(n);
  }

  /** `Number(n.toString()) == n` for every integer, negative ones included. */
  lemma NumberOfIntText(n: int)
    ensures NumberValue(IntText(n)) == Some(n)
  {
    if n < 0 {
      var digits := NatText(-n);
      var s := "-" + digits;
      assert s[1..] == digits;
      assert AllDigits(digits);
      DecimalValueNatText(-n);
      assert NumberValue(s) == Some(-(DecimalValue(digits) as int));
    } else {
      NumberOfNatText(n);
    }
  }
}
