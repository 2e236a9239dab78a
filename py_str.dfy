/**
 * The Python string operations the backend relies on: `strip`, `lower`,
 * `split` on one character, `join` and `startswith`.
 */
module PyStr {

  /** The whitespace `str.strip()` removes, restricted to ASCII and Latin-1. */
  predicate IsSpace(c: char) {
    c == ' ' || c == '\t' || c == '\n' || c == '\r' || c == '\U{000B}' || c == '\U{000C}'
    || ('\U{001C}' <= c <= '\U{001F}') || c == '\U{0085}' || c == '\U{00A0}'
  }

  /** `s.lstrip()` */
  function TrimLeft(s: string): (r: string)
    ensures |r| <= |s| && r == s[|s| - |r|..]
    ensures forall i :: 0 <= i < |s| - |r| ==> IsSpace(s[i])
    ensures r != [] ==> !IsSpace(r[0])
  {
    if s != [] && IsSpace(s[0]) then TrimLeft(s[1..]) else s
  }

  /** `s.rstrip()` */
  function TrimRight(s: string): (r: string)
    ensures |r| <= |s| && r == s[..|r|]
    ensures forall i :: |r| <= i < |s| ==> IsSpace(s[i])
    ensures r != [] ==> !IsSpace(r[|r| - 1])
  {
    if s != [] && IsSpace(s[|s| - 1]) then TrimRight(s[..|s| - 1]) else s
  }

  /** `s.strip()`: `s` without its leading and trailing whitespace. */
  function Strip(s: string): (r: string)
    ensures |r| <= |s|
    ensures r != [] ==> !IsSpace(r[0]) && !IsSpace(r[|r| - 1])
    ensures r == [] <==> forall i :: 0 <= i < |s| ==> IsSpace(s[i])
  {
    var l := TrimLeft(s);
    var r := TrimRight(l);
    assert l != [] ==> r != [];
    r
  }

  /** A string that has no whitespace at either end. */
  predicate Stripped(s: string) {
    s != [] ==> !IsSpace(s[0]) && !IsSpace(s[|s| - 1])
  }

  lemma StripOfStripped(s: string)
    requires Stripped(s)
    ensures Strip(s) == s
  {
  }

  /** Stripping twice is stripping once. */
  lemma StripIdempotent(s: string)
    ensures Strip(Strip(s)) == Strip(s)
  {
    StripOfStripped(Strip(s));
  }

  /** Leading whitespace is all `lstrip` removes. */
  lemma {:induction false} TrimLeftPadded(pad: string, t: string)
    requires forall i :: 0 <= i < |pad| ==> IsSpace(pad[i])
    requires t != [] && !IsSpace(t[0])
    ensures TrimLeft(pad + t) == t
    decreases |pad|
  {
    if pad == [] {
      assert pad + t == t;
    } else {
      var s := pad + t;
      assert s[0] == pad[0] && IsSpace(s[0]);
      assert s[1..] == pad[1..] + t;
      assert TrimLeft(s) == TrimLeft(s[1..]);
      TrimLeftPadded(pad[1..], t);
    }
  }

  /** Trailing whitespace is all `rstrip` removes. */
  lemma {:induction false} TrimRightPadded(t: string, pad: string)
    requires forall i :: 0 <= i < |pad| ==> IsSpace(pad[i])
    requires t != [] && !IsSpace(t[|t| - 1])
    ensures TrimRight(t + pad) == t
    decreases |pad|
  {
    if pad == [] {
      assert t + pad == t;
    } else {
      var s := t + pad;
      assert s[|s| - 1] == pad[|pad| - 1] && IsSpace(s[|s| - 1]);
      assert s[..|s| - 1] == t + pad[..|pad| - 1];
      assert TrimRight(s) == TrimRight(s[..|s| - 1]);
      TrimRightPadded(t, pad[..|pad| - 1]);
    }
  }

  /** `strip` undoes padding a non-blank stripped text with whitespace on both sides. */
  lemma StripPadded(pad: string, w: string)
    requires forall i :: 0 <= i < |pad| ==> IsSpace(pad[i])
    requires w != [] && Stripped(w)
    ensures Strip(pad + w + pad) == w
  {
    assert pad + w + pad == pad + (w + pad);
    TrimLeftPadded(pad, w + pad);
    TrimRightPadded(w, pad);
  }

  /** Stripping removes characters and never adds one. */
  lemma StripSubstring(s: string, c: char)
    requires c !in s
    ensures c !in Strip(s)
  {
    var l := TrimLeft(s);
    assert c !in l;
  }

  /** `c.lower()` for ASCII letters; every other character is left alone. */
  function LowerChar(c: char): char {
    if 'A' <= c <= 'Z' then (c as int + 32) as char else c
  }

  /** `s.lower()` */
  function Lower(s: string): (r: string)
    ensures |r| == |s|
    ensures forall i :: 0 <= i < |s| ==> r[i] == LowerChar(s[i])
  {
    seq(|s|, i requires 0 <= i < |s| => LowerChar(s[i]))
  }

  /** `s.startswith(prefix)` */
  predicate StartsWith(s: string, prefix: string) {
    |prefix| <= |s| && s[..|prefix|] == prefix
  }

  /**
   * `s.split(sep)` for a one-character separator: the pieces between
   * consecutive separators, empty pieces included.
   */
  function Split(s: string, sep: char): (pieces: seq<string>)
    ensures |pieces| >= 1
    ensures forall k :: 0 <= k < |pieces| ==> sep !in pieces[k]
  {
    if s == [] then [""]
    else
      var rest := Split(s[1..], sep);
      if s[0] == sep then [""] + rest
      else [[s[0]] + rest[0]] + rest[1..]
  }

  /** `sep.join(xs)` */
  function Join(xs: seq<string>, sep: string): string {
    if xs == [] then ""
    else if |xs| == 1 then xs[0]
    else xs[0] + sep + Join(xs[1..], sep)
  }

  /** The text of `s` up to, not including, the first `c` (all of `s` if none). */
  function UpTo(s: string, c: char): (r: string)
    ensures r <= s && c !in r
    ensures |r| < |s| ==> s[|r|] == c
  {
    if s == [] || s[0] == c then "" else [s[0]] + UpTo(s[1..], c)
  }

  /** Splitting `a + b` where `a` holds no separator glues `a` onto the first piece of `b`. */
  lemma {:induction false} SplitPrefix(a: string, b: string, sep: char)
    requires sep !in a
    ensures Split(a + b, sep) == [a + Split(b, sep)[0]] + Split(b, sep)[1..]
    decreases |a|
  {
    if a == [] {
      var p := Split(b, sep);
      assert a + b == b && a + p[0] == p[0];
      assert p == [p[0]] + p[1..];
    } else {
      assert (a + b)[1..] == a[1..] + b;
      SplitPrefix(a[1..], b, sep);
      assert [a[0]] + (a[1..] + Split(b, sep)[0]) == a + Split(b, sep)[0];
    }
  }

  /** The first piece of `s.split(sep)` is the text before the first separator. */
  lemma {:induction false} SplitFirst(s: string, sep: char)
    ensures Split(s, sep)[0] == UpTo(s, sep)
    ensures |UpTo(s, sep)| < |s| ==> Split(s, sep)[1..] == Split(s[|UpTo(s, sep)| + 1..], sep)
    decreases |s|
  {
    if s != [] && s[0] != sep {
      SplitFirst(s[1..], sep);
    }
  }

  /**
   * When the first separator of `s` sits at index `i`, `s.split(sep)[1]`
   * is the text after it up to the next separator.
   */
  lemma SplitSecond(s: string, sep: char, i: nat)
    requires i < |s| && s[i] == sep && sep !in s[..i]
    ensures |Split(s, sep)| >= 2
    ensures Split(s, sep)[1] == UpTo(s[i + 1..], sep)
  {
    assert s == s[..i] + s[i..];
    SplitPrefix(s[..i], s[i..], sep);
    var tail := s[i..];
    assert tail[0] == sep && tail[1..] == s[i + 1..];
    SplitFirst(s[i + 1..], sep);
  }

  /** Joining pieces that hold no separator and splitting again gives the pieces back. */
  lemma {:induction false} SplitJoin(xs: seq<string>, sep: char)
    requires |xs| >= 1
    requires forall k :: 0 <= k < |xs| ==> sep !in xs[k]
    ensures Split(Join(xs, [sep]), sep) == xs
    decreases |xs|
  {
    if |xs| == 1 {
      SplitPrefix(xs[0], "", sep);
      assert xs[0] + "" == xs[0];
    } else {
      var rest := Join(xs[1..], [sep]);
      SplitJoin(xs[1..], sep);
      assert Join(xs, [sep]) == xs[0] + ([sep] + rest);
      SplitPrefix(xs[0], [sep] + rest, sep);
      assert ([sep] + rest)[1..] == rest;
      assert Split([sep] + rest, sep) == [""] + xs[1..];
      assert xs[0] + "" == xs[0];
    }
  }

  /** Joining a list of two or more puts the separator after its first element. */
  lemma JoinCons(x: string, xs: seq<string>, sep: string)
    requires xs != []
    ensures Join([x] + xs, sep) == x + sep + Join(xs, sep)
  {
    assert ([x] + xs)[1..] == xs;
  }

  /** Splitting and joining with the same separator gives the string back. */
  lemma {:induction false} JoinSplit(s: string, sep: char)
    ensures Join(Split(s, sep), [sep]) == s
    decreases |s|
  {
    if s != [] {
      JoinSplit(s[1..], sep);
      var rest := Split(s[1..], sep);
      var tail := Join(rest, [sep]);
      assert tail == s[1..];
      if s[0] == sep {
        JoinCons("", rest, [sep]);
        assert s == "" + [sep] + tail;
      } else if |rest| == 1 {
        assert Split(s, sep) == [[s[0]] + rest[0]];
        assert s == [s[0]] + tail;
      } else {
        var more := Join(rest[1..], [sep]);
        JoinCons(rest[0], rest[1..], [sep]);
        assert rest == [rest[0]] + rest[1..];
        JoinCons([s[0]] + rest[0], rest[1..], [sep]);
        assert s == [s[0]] + (rest[0] + [sep] + more);
      }
    }
  }
}
