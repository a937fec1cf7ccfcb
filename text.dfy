/** The string operations the publisher relies on: lower-casing, substring search,
    joining with a separator, and the inverse of a join. */
module Text {

  /** `String.prototype.toLowerCase` on one character, for every character whose
      lower-case form holds an ASCII character: the ASCII capitals, U+212A KELVIN SIGN
      (to `k`) and U+0130 LATIN CAPITAL LETTER I WITH DOT ABOVE (to `i` followed by
      U+0307 COMBINING DOT ABOVE). Every other character is kept. */
  function LowerChar(c: char): (r: string)
    ensures 1 <= |r| <= 2
    ensures r[0] == '.' <==> c == '.'
    ensures forall i :: 1 <= i < |r| ==> r[i] == '\U{0307}'
  {
    if 'A' <= c <= 'Z' then [(c as int + 32) as char]
    else if c == '\U{212A}' then "k"
    else if c == '\U{0130}' then "i\U{0307}"
    else [c]
  }

  /** `String.prototype.toLowerCase`: each character lower-cased in turn. */
  function Lower(s: string): (r: string)
    ensures |s| <= |r| <= 2 * |s|
  {
    if s == [] then [] else LowerChar(s[0]) + Lower(s[1..])
  }

  /** A lower-cased string holds no ASCII capital. */
  lemma {:induction false} LowerHasNoCapital(s: string)
    ensures forall i :: 0 <= i < |Lower(s)| ==> !('A' <= Lower(s)[i] <= 'Z')
    decreases |s|
  {
    if s != [] {
      LowerHasNoCapital(s[1..]);
      var head := LowerChar(s[0]);
      assert forall i :: |head| <= i < |Lower(s)| ==> Lower(s)[i] == Lower(s[1..])[i - |head|];
    }
  }

  /** Lower-casing works character by character, so it distributes over `+`. */
  lemma {:induction false} LowerConcat(a: string, b: string)
    ensures Lower(a + b) == Lower(a) + Lower(b)
    decreases |a|
  {
    if a == [] {
      assert a + b == b;
    } else {
      assert (a + b)[0] == a[0] && (a + b)[1..] == a[1..] + b;
      LowerConcat(a[1..], b);
    }
  }

  /** A lower-cased character is its own lower-case form. */
  lemma LowerCharFixed(c: char)
    ensures Lower(LowerChar(c)) == LowerChar(c)
  {
    var r := LowerChar(c);
    if |r| == 2 {
      assert r == [r[0]] + [r[1]];
      LowerConcat([r[0]], [r[1]]);
    } else {
      assert r == [r[0]];
    }
  }

  /** Lower-casing twice is lower-casing once. */
  lemma {:induction false} LowerIdempotent(s: string)
    ensures Lower(Lower(s)) == Lower(s)
    decreases |s|
  {
    if s != [] {
      LowerConcat(LowerChar(s[0]), Lower(s[1..]));
      LowerCharFixed(s[0]);
      LowerIdempotent(s[1..]);
    }
  }

  /** Lower-casing neither creates nor removes a dot. */
  lemma {:induction false} LowerKeepsDot(s: string)
    ensures '.' in Lower(s) <==> '.' in s
    decreases |s|
  {
    if s != [] {
      var head := LowerChar(s[0]);
      LowerKeepsDot(s[1..]);
      assert '.' in head <==> s[0] == '.' by {
        if '.' in head {
          var i :| 0 <= i < |head| && head[i] == '.';
          assert i == 0;
        }
      }
      assert s == [s[0]] + s[1..];
    }
  }

  /** `t` occurs in `s` starting at index `i`. */
  predicate OccursAt(s: string, t: string, i: int)
  {
    0 <= i && i + |t| <= |s| && s[i..i + |t|] == t
  }

  /** A text that starts a middle part occurs in the whole right after the first part. */
  lemma OccursInMiddle(a: string, b: string, c: string, t: string)
    requires |t| <= |b| && b[..|t|] == t
    ensures OccursAt(a + b + c, t, |a|)
  {
    assert (a + b + c)[|a|..|a| + |t|] == b[..|t|];
  }

  /** `String.prototype.includes`: `t` occurs somewhere in `s`. */
  function Contains(s: string, t: string): (found: bool)
    decreases |s|
  {
    if |t| > |s| then false
    else if s[..|t|] == t then true
    else Contains(s[1..], t)
  }

  /** `Contains` is exactly "there is a position where `t` occurs". */
  lemma {:induction false} ContainsSpec(s: string, t: string)
    ensures Contains(s, t) <==> exists i :: OccursAt(s, t, i)
    decreases |s|
  {
    if |t| > |s| {
    } else if s[..|t|] == t {
      assert OccursAt(s, t, 0);
    } else {
      ContainsSpec(s[1..], t);
      if Contains(s[1..], t) {
        var i :| OccursAt(s[1..], t, i);
        assert s[1..][i..i + |t|] == s[i + 1..i + 1 + |t|];
        assert OccursAt(s, t, i + 1);
      }
      if i :| OccursAt(s, t, i) {
        assert i != 0;
        assert s[1..][i - 1..i - 1 + |t|] == s[i..i + |t|];
        assert OccursAt(s[1..], t, i - 1);
      }
    }
  }

  /** `Array.prototype.join(sep)`. */
  function Join(parts: seq<string>, sep: string): (joined: string)
  {
    if |parts| == 0 then ""
    else if |parts| == 1 then parts[0]
    else parts[0] + sep + Join(parts[1..], sep)
  }

  /** `String.prototype.split(sep)` for a one-character separator. */
  function Split(s: string, sep: char): (r: seq<string>)
    ensures |r| >= 1
    decreases |s|
  {
    if s == [] then [""]
    else
      var rest := Split(s[1..], sep);
      if s[0] == sep then [""] + rest
      else [[s[0]] + rest[0]] + rest[1..]
  }

  /** A piece without the separator splits to itself. */
  lemma {:induction false} SplitPiece(p: string, sep: char)
    requires sep !in p
    ensures Split(p, sep) == [p]
    decreases |p|
  {
    if p != [] {
      SplitPiece(p[1..], sep);
      assert [p[0]] + p[1..] == p;
    }
  }

  /** Splitting stops at the first separator. */
  lemma {:induction false} SplitAfterPiece(p: string, rest: string, sep: char)
    requires sep !in p
    ensures Split(p + [sep] + rest, sep) == [p] + Split(rest, sep)
    decreases |p|
  {
    var s := p + [sep] + rest;
    if p == [] {
      assert s[0] == sep && s[1..] == rest;
    } else {
      assert s[0] == p[0] && s[1..] == p[1..] + [sep] + rest;
      SplitAfterPiece(p[1..], rest, sep);
      assert [p[0]] + p[1..] == p;
    }
  }

  /** Joining with a one-character separator that no part contains can be undone by
      splitting: the list, its order and its length are all recoverable. */
  lemma {:induction false} SplitJoin(parts: seq<string>, sep: char)
    requires |parts| >= 1
    requires forall k :: 0 <= k < |parts| ==> sep !in parts[k]
    ensures Split(Join(parts, [sep]), sep) == parts
    decreases |parts|
  {
    if |parts| == 1 {
      SplitPiece(parts[0], sep);
    } else {
      SplitJoin(parts[1..], sep);
      SplitAfterPiece(parts[0], Join(parts[1..], [sep]), sep);
      assert [parts[0]] + parts[1..] == parts;
    }
  }

  /** One decimal digit. */
  function DigitChar(d: nat): (digit: char)
    requires d < 10
  {
    ('0' as int + d) as char
  }

  /** The number a string of decimal digits stands for. */
  function DigitsValue(s: string): (value: int)
  {
    if s == [] then 0 else 10 * DigitsValue(s[..|s| - 1]) + (s[|s| - 1] as int - '0' as int)
  }

  /** The decimal form of a natural number, as template literals print it: the
      digits stand for `n`, with no leading zero. */
  function NatToString(n: nat): (r: string)
    ensures |r| >= 1
    ensures forall i :: 0 <= i < |r| ==> '0' <= r[i] <= '9'
    ensures DigitsValue(r) == n
    ensures n > 0 ==> r[0] != '0'
    decreases n
  {
    if n < 10 then [DigitChar(n)]
    else
      var prefix := NatToString(n / 10);
      var r := prefix + [DigitChar(n % 10)];
      assert r[..|r| - 1] == prefix;
      r
  }
}
