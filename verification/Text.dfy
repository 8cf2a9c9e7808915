/** Text helpers: ASCII case folding, substring search, joining, and the
    code-point order in which Python compares strings. */
module Text {

  function LowerChar(c: char): char {
    if 'A' <= c <= 'Z' then c - 'A' + 'a' else c
  }

  function Lower(s: string): string {
    seq(|s|, i requires 0 <= i < |s| => LowerChar(s[i]))
  }

  predicate OccursAt(text: string, part: string, i: int) {
    0 <= i <= |text| - |part| && text[i..i + |part|] == part
  }

  predicate Contains(text: string, part: string) {
    exists i | 0 <= i <= |text| :: OccursAt(text, part, i)
  }

  function Join(parts: seq<string>, separator: string): string {
    if parts == [] then ""
    else if |parts| == 1 then parts[0]
    else parts[0] + separator + Join(parts[1..], separator)
  }

  /** Strict lexicographic order by code point. */
  predicate Less(a: string, b: string) {
    b != [] && (a == [] || a[0] < b[0] || (a[0] == b[0] && Less(a[1..], b[1..])))
  }

  lemma {:induction false} LessIrreflexive(a: string)
    ensures !Less(a, a)
  {
    if a != [] {
      LessIrreflexive(a[1..]);
    }
  }

  lemma {:induction false} LessTotal(a: string, b: string)
    ensures a == b || Less(a, b) || Less(b, a)
  {
    if a != [] && b != [] && a[0] == b[0] {
      LessTotal(a[1..], b[1..]);
      assert a == [a[0]] + a[1..] && b == [b[0]] + b[1..];
    }
  }

  lemma {:induction false} LessTransitive(a: string, b: string, c: string)
    requires Less(a, b) && Less(b, c)
    ensures Less(a, c)
  {
    if a != [] && a[0] == b[0] == c[0] {
      LessTransitive(a[1..], b[1..], c[1..]);
    }
  }

  lemma LessAsymmetric(a: string, b: string)
    requires Less(a, b)
    ensures !Less(b, a)
  {
    if Less(b, a) {
      LessTransitive(a, b, a);
      LessIrreflexive(a);
    }
  }

  /** The order is the lexicographic one: a proper prefix comes first, else the
      first letter that differs decides. */
  lemma {:induction false} LessIsLexicographic(a: string, b: string)
    ensures Less(a, b) <==>
            || (|a| < |b| && a == b[..|a|])
            || exists i :: 0 <= i < |a| && i < |b| && a[..i] == b[..i] && a[i] < b[i]
  {
    if a != [] && b != [] && a[0] == b[0] {
      var x, y := a[1..], b[1..];
      LessIsLexicographic(x, y);
      assert a == [a[0]] + x && b == [b[0]] + y;
      if |a| < |b| && x == y[..|x|] {
        assert b[..|a|] == [b[0]] + y[..|x|];
      }
      if |a| < |b| && a == b[..|a|] {
        assert y[..|x|] == b[..|a|][1..];
      }
      if i :| 0 <= i < |x| && i < |y| && x[..i] == y[..i] && x[i] < y[i] {
        assert a[..i + 1] == [a[0]] + x[..i] && b[..i + 1] == [b[0]] + y[..i];
        assert a[i + 1] == x[i] && b[i + 1] == y[i];
      }
      if i :| 0 <= i < |a| && i < |b| && a[..i] == b[..i] && a[i] < b[i] {
        assert i > 0;
        assert x[..i - 1] == a[..i][1..] && y[..i - 1] == b[..i][1..];
        assert x[i - 1] == a[i] && y[i - 1] == b[i];
      }
    } else if a != [] && b != [] && a[0] < b[0] {
      assert a[..0] == b[..0];
    } else if a != [] && b != [] {
      assert a[0] > b[0];
      assert |a| < |b| ==> b[..|a|][0] == b[0];
      forall i | 0 < i < |a| && i < |b| ensures a[..i] != b[..i] {
        assert a[..i][0] == a[0] && b[..i][0] == b[0];
      }
    }
  }

  lemma LowerConcat(a: string, b: string)
    ensures Lower(a + b) == Lower(a) + Lower(b)
  {
  }

  lemma OccurrenceLetter(text: string, word: string, i: int, at: int)
    requires OccursAt(text, word, i) && i <= at < i + |word|
    ensures text[at] in word
  {
    assert text[at] == text[i..i + |word|][at - i];
  }

  /** A word without the separator occurs in a text made of two parts exactly
      when it occurs in one of them. */
  lemma ContainsAcross(a: string, b: string, separator: char, word: string)
    requires separator !in word && word != ""
    ensures Contains(a + [separator] + b, word) <==> Contains(a, word) || Contains(b, word)
  {
    var text := a + [separator] + b;
    if i :| 0 <= i <= |text| && OccursAt(text, word, i) {
      if i <= |a| < i + |word| {
        OccurrenceLetter(text, word, i, |a|);
      } else if i + |word| <= |a| {
        assert text[i..i + |word|] == a[i..i + |word|];
        assert OccursAt(a, word, i);
      } else {
        assert text[i..i + |word|] == b[i - |a| - 1..i - |a| - 1 + |word|];
        assert OccursAt(b, word, i - |a| - 1);
      }
    }
    if i :| 0 <= i <= |a| && OccursAt(a, word, i) {
      assert text[i..i + |word|] == a[i..i + |word|];
      assert OccursAt(text, word, i);
    }
    if i :| 0 <= i <= |b| && OccursAt(b, word, i) {
      assert text[|a| + 1 + i..|a| + 1 + i + |word|] == b[i..i + |word|];
      assert OccursAt(text, word, |a| + 1 + i);
    }
  }

  /** The same for any number of parts joined by spaces, whatever their case. */
  lemma {:induction false} ContainsInJoin(parts: seq<string>, word: string)
    requires ' ' !in word && word != ""
    ensures Contains(Lower(Join(parts, " ")), word) <==> exists p | p in parts :: Contains(Lower(p), word)
  {
    if |parts| > 1 {
      var rest := Join(parts[1..], " ");
      ContainsInJoin(parts[1..], word);
      LowerConcat(parts[0] + " ", rest);
      LowerConcat(parts[0], " ");
      assert Lower(" ") == " ";
      ContainsAcross(Lower(parts[0]), Lower(rest), ' ', word);
      assert parts == [parts[0]] + parts[1..];
    } else if |parts| == 1 {
      assert parts == [parts[0]];
    } else {
      assert Lower("") == "" && !Contains("", word);
    }
  }
}
