/** PHP's `explode()` with a one-character delimiter, and its inverse
    `implode()`, as used to split a composer package name "vendor/package". */
module Strings {

  /** The pieces of `s` between the occurrences of `sep`, left to right. */
  function Explode(sep: char, s: string): (parts: seq<string>)
    ensures |parts| >= 1
    decreases |s|
  {
    if s == [] then [""]
    else
      var rest := Explode(sep, s[1..]);
      if s[0] == sep then [""] + rest
      else [[s[0]] + rest[0]] + rest[1..]
  }

  /** The pieces glued back together with `sep` between neighbours. */
  function Implode(sep: char, parts: seq<string>): string
    requires |parts| >= 1
  {
    if |parts| == 1 then parts[0] else parts[0] + [sep] + Implode(sep, parts[1..])
  }

  /** No piece contains the delimiter. */
  lemma {:induction false} ExplodePiecesAreFree(sep: char, s: string)
    ensures forall i :: 0 <= i < |Explode(sep, s)| ==> sep !in Explode(sep, s)[i]
    decreases |s|
  {
    if s != [] {
      ExplodePiecesAreFree(sep, s[1..]);
    }
  }

  /** Prepending a character to the first piece prepends it to the glued string. */
  lemma ImplodePrependChar(sep: char, c: char, parts: seq<string>)
    requires |parts| >= 1
    ensures Implode(sep, [[c] + parts[0]] + parts[1..]) == [c] + Implode(sep, parts)
  {
  }

  /** Gluing the pieces back together gives the original string. */
  lemma {:induction false} ImplodeExplode(sep: char, s: string)
    ensures Implode(sep, Explode(sep, s)) == s
    decreases |s|
  {
    if s != [] {
      var rest := Explode(sep, s[1..]);
      ImplodeExplode(sep, s[1..]);
      if s[0] == sep {
        assert ([""] + rest)[1..] == rest;
      } else {
        ImplodePrependChar(sep, s[0], rest);
      }
      assert [s[0]] + s[1..] == s;
    }
  }

  /** A string without the delimiter is a single piece. */
  lemma {:induction false} ExplodeWithoutSeparator(sep: char, v: string)
    requires sep !in v
    ensures Explode(sep, v) == [v]
    decreases |v|
  {
    if v != [] {
      assert sep !in v[1..] by {
        forall i | 0 <= i < |v[1..]| ensures v[1..][i] != sep {
          assert v[1..][i] == v[i + 1];
        }
      }
      ExplodeWithoutSeparator(sep, v[1..]);
      assert [v[0]] + v[1..] == v;
    }
  }

  /** A leading delimiter-free piece followed by the delimiter splits off first. */
  lemma {:induction false} ExplodeAfterPiece(sep: char, v: string, w: string)
    requires sep !in v
    ensures Explode(sep, v + [sep] + w) == [v] + Explode(sep, w)
    decreases |v|
  {
    var s := v + [sep] + w;
    if v == [] {
      assert s[0] == sep && s[1..] == w;
    } else {
      assert s[0] == v[0] && v[0] != sep;
      assert s[1..] == v[1..] + [sep] + w;
      assert sep !in v[1..] by {
        forall i | 0 <= i < |v[1..]| ensures v[1..][i] != sep {
          assert v[1..][i] == v[i + 1];
        }
      }
      ExplodeAfterPiece(sep, v[1..], w);
      assert [v[0]] + v[1..] == v;
    }
  }

  /** Splitting delimiter-free pieces that were glued together gives them back. */
  lemma {:induction false} ExplodeImplode(sep: char, parts: seq<string>)
    requires |parts| >= 1
    requires forall i :: 0 <= i < |parts| ==> sep !in parts[i]
    ensures Explode(sep, Implode(sep, parts)) == parts
    decreases |parts|
  {
    if |parts| == 1 {
      ExplodeWithoutSeparator(sep, parts[0]);
    } else {
      ExplodeImplode(sep, parts[1..]);
      ExplodeAfterPiece(sep, parts[0], Implode(sep, parts[1..]));
      assert [parts[0]] + parts[1..] == parts;
    }
  }
}
