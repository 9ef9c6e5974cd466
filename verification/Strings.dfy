/** Splitting and joining text at a separator, as `split` and `join` do. */
module Strings {

  /** Puts a character in front of the first piece. */
  function Prepend(c: char, parts: seq<string>): (r: seq<string>)
    requires parts != []
    ensures |r| == |parts| && r[0] == [c] + parts[0] && r[1..] == parts[1..]
  {
    [[c] + parts[0]] + parts[1..]
  }

  /** Cuts at every separator; there is always one piece more than there are separators. */
  function Split(text: string, sep: char): (parts: seq<string>)
    ensures parts != []
  {
    if text == "" then [""]
    else
      var rest := Split(text[1..], sep);
      if text[0] == sep then [""] + rest else Prepend(text[0], rest)
  }

  function Join(parts: seq<string>, sep: char): string {
    if parts == [] then "" else if |parts| == 1 then parts[0] else parts[0] + [sep] + Join(parts[1..], sep)
  }

  lemma PrependConcat(c: char, a: seq<string>, b: seq<string>)
    requires a != []
    ensures Prepend(c, a + b) == Prepend(c, a) + b
  {
  }

  lemma {:induction false} SplitAtSeparator(a: string, b: string, sep: char)
    ensures Split(a + [sep] + b, sep) == Split(a, sep) + Split(b, sep)
  {
    var t := a + [sep] + b;
    if a == "" {
      assert t[0] == sep && t[1..] == b;
    } else {
      SplitAtSeparator(a[1..], b, sep);
      assert t[0] == a[0] && t[1..] == a[1..] + [sep] + b;
      if a[0] == sep {
        assert Split(t, sep) == [""] + (Split(a[1..], sep) + Split(b, sep));
      } else {
        PrependConcat(a[0], Split(a[1..], sep), Split(b, sep));
      }
    }
  }

  lemma {:induction false} NoSeparator(s: string, sep: char)
    requires sep !in s
    ensures Split(s, sep) == [s]
  {
    if s != "" {
      NoSeparator(s[1..], sep);
      assert s == [s[0]] + s[1..];
    }
  }

  lemma {:induction false} JoinSplit(text: string, sep: char)
    ensures Join(Split(text, sep), sep) == text
  {
    if text != "" {
      var rest := Split(text[1..], sep);
      JoinSplit(text[1..], sep);
      if text[0] == sep {
        assert ([""] + rest)[1..] == rest;
        assert "" + [sep] + text[1..] == text;
      } else {
        var parts := Prepend(text[0], rest);
        assert parts[1..] == rest[1..];
        assert Join(parts, sep) == [text[0]] + Join(rest, sep);
      }
    }
  }

  lemma {:induction false} JoinConcat(a: seq<string>, b: seq<string>, sep: char)
    requires a != [] && b != []
    ensures Join(a + b, sep) == Join(a, sep) + [sep] + Join(b, sep)
  {
    if |a| == 1 {
      assert (a + b)[1..] == b;
    } else {
      JoinConcat(a[1..], b, sep);
      assert (a + b)[1..] == a[1..] + b;
    }
  }

  predicate StartsWith(s: string, prefix: string) {
    prefix <= s
  }

  /** A text starts with another and a separator exactly when the pieces of the one strictly extend the other's. */
  lemma PrefixIsPiecewise(whole: string, part: string, sep: char)
    ensures StartsWith(whole, part + [sep]) <==> Split(part, sep) < Split(whole, sep)
  {
    var p, w := Split(part, sep), Split(whole, sep);
    if StartsWith(whole, part + [sep]) {
      var rest := whole[|part| + 1..];
      assert whole == part + [sep] + rest;
      SplitAtSeparator(part, rest, sep);
    }
    if p < w {
      var rest := w[|p|..];
      assert w == p + rest;
      JoinConcat(p, rest, sep);
      JoinSplit(part, sep);
      JoinSplit(whole, sep);
      assert whole == part + [sep] + Join(rest, sep);
    }
  }

  lemma SplitInjective(a: string, b: string, sep: char)
    requires Split(a, sep) == Split(b, sep)
    ensures a == b
  {
    JoinSplit(a, sep);
    JoinSplit(b, sep);
  }

  lemma {:induction false} SplitJoin(parts: seq<string>, sep: char)
    requires parts != [] && forall i | 0 <= i < |parts| :: sep !in parts[i]
    ensures Split(Join(parts, sep), sep) == parts
  {
    NoSeparator(parts[0], sep);
    if |parts| > 1 {
      SplitJoin(parts[1..], sep);
      SplitAtSeparator(parts[0], Join(parts[1..], sep), sep);
      assert parts == [parts[0]] + parts[1..];
    }
  }

  /** Pieces hold no separator, and no character that the text does not hold. */
  lemma {:induction false} PiecesAvoid(text: string, sep: char, c: char)
    requires c == sep || c !in text
    ensures forall i | 0 <= i < |Split(text, sep)| :: c !in Split(text, sep)[i]
  {
    if text != "" {
      var parts, rest := Split(text, sep), Split(text[1..], sep);
      PiecesAvoid(text[1..], sep, c);
      if text[0] == sep {
        assert parts == [""] + rest;
      } else {
        assert parts == Prepend(text[0], rest);
        assert forall i | 1 <= i < |rest| :: parts[i] == rest[1..][i - 1];
      }
    }
  }

  lemma {:induction false} JoinAvoids(parts: seq<string>, sep: char, c: char)
    requires c != sep && forall i | 0 <= i < |parts| :: c !in parts[i]
    ensures c !in Join(parts, sep)
  {
    if |parts| > 1 { JoinAvoids(parts[1..], sep, c); }
  }
}
