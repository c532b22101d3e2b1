/** The string operations the handlers rely on: JavaScript's `split` on a
    one-character separator, `toLowerCase`, and the regular expressions of
    the routes, each written out as a predicate over characters. */
module Text {
  import opened Wrappers

  predicate IsDigit(c: char) { '0' <= c <= '9' }

  predicate IsUpper(c: char) { 'A' <= c <= 'Z' }

  predicate AllDigits(s: string) {
    forall i :: 0 <= i < |s| ==> IsDigit(s[i])
  }

  /** The characters matched by the `\s` class of a JavaScript regular expression. */
  predicate IsSpace(c: char) {
    || c == ' '
    || '\t' <= c <= '\r'
    || c == '\U{00A0}' || c == '\U{1680}'
    || '\U{2000}' <= c <= '\U{200A}'
    || c == '\U{2028}' || c == '\U{2029}' || c == '\U{202F}'
    || c == '\U{205F}' || c == '\U{3000}' || c == '\U{FEFF}'
  }

  // ---------------------------------------------------------------------
  // toLowerCase (ASCII letters only)
  // ---------------------------------------------------------------------

  function LowerChar(c: char): (d: char)
    ensures !IsUpper(d)
    ensures !IsUpper(c) ==> d == c
  {
    if IsUpper(c) then (c as int + 32) as char else c
  }

  /** No upper-case ASCII letter occurs in `s`. */
  predicate IsLower(s: string) {
    forall i :: 0 <= i < |s| ==> !IsUpper(s[i])
  }

  function ToLower(s: string): (r: string)
    ensures |r| == |s|
    ensures forall i :: 0 <= i < |s| ==> r[i] == LowerChar(s[i])
  {
    seq(|s|, i requires 0 <= i < |s| => LowerChar(s[i]))
  }

  /** Lower-casing yields a lower-case string and leaves lower-case strings alone,
      so it is idempotent. */
  lemma ToLowerIsLower(s: string)
    ensures IsLower(ToLower(s))
    ensures IsLower(s) <==> ToLower(s) == s
    ensures ToLower(ToLower(s)) == ToLower(s)
  {
    if IsLower(s) {
      assert forall i :: 0 <= i < |s| ==> ToLower(s)[i] == s[i];
    }
    if ToLower(s) == s {
      assert forall i :: 0 <= i < |s| ==> !IsUpper(ToLower(s)[i]);
    }
    var t := ToLower(s);
    assert forall i :: 0 <= i < |t| ==> ToLower(t)[i] == t[i];
  }

  // ---------------------------------------------------------------------
  // split on a one-character separator
  // ---------------------------------------------------------------------

  /** `s.split(sep)`: the pieces between the separators, in order; there is
      always at least one piece, and none contains the separator. */
  function Split(s: string, sep: char): (pieces: seq<string>)
    ensures |pieces| >= 1
    ensures forall k :: 0 <= k < |pieces| ==> sep !in pieces[k]
    decreases |s|
  {
    if |s| == 0 then [""]
    else
      var rest := Split(s[1..], sep);
      if s[0] == sep then [""] + rest
      else [[s[0]] + rest[0]] + rest[1..]
  }

  /** `pieces.join(sep)`, the inverse of `Split`. */
  function Join(pieces: seq<string>, sep: char): string
  {
    if |pieces| == 0 then ""
    else if |pieces| == 1 then pieces[0]
    else pieces[0] + [sep] + Join(pieces[1..], sep)
  }

  /** `s.split(sep)[k]`: `undefined` past the last piece. */
  function Piece(s: string, sep: char, k: nat): (r: Option<string>)
    ensures r.Some? ==> sep !in r.value
  {
    var pieces := Split(s, sep);
    if k < |pieces| then Some(pieces[k]) else None
  }

  /** Splitting loses nothing: joining the pieces gives the string back. */
  lemma {:induction false} JoinSplit(s: string, sep: char)
    ensures Join(Split(s, sep), sep) == s
    decreases |s|
  {
    if |s| > 0 {
      var rest := Split(s[1..], sep);
      JoinSplit(s[1..], sep);
      if s[0] == sep {
        assert Split(s, sep) == [""] + rest;
        assert ([""] + rest)[1..] == rest;
        assert s == [sep] + s[1..];
      } else {
        var pieces := [[s[0]] + rest[0]] + rest[1..];
        assert Split(s, sep) == pieces;
        if |rest| == 1 {
          assert s == [s[0]] + s[1..];
        } else {
          assert pieces[1..] == rest[1..];
          assert Join(rest, sep) == rest[0] + [sep] + Join(rest[1..], sep);
          assert s == [s[0]] + s[1..];
        }
      }
    }
  }

  /** A string without the separator is a single piece. */
  lemma {:induction false} SplitWithoutSeparator(s: string, sep: char)
    requires sep !in s
    ensures Split(s, sep) == [s]
    decreases |s|
  {
    if |s| > 0 {
      assert sep !in s[1..] by {
        forall c | c in s[1..] ensures c != sep { }
      }
      SplitWithoutSeparator(s[1..], sep);
      assert s == [s[0]] + s[1..];
    }
  }

  /** A separator-free word followed by the separator becomes the first piece,
      and the rest splits on its own. */
  lemma {:induction false} SplitAfterWord(w: string, sep: char, rest: string)
    requires sep !in w
    ensures Split(w + [sep] + rest, sep) == [w] + Split(rest, sep)
    decreases |w|
  {
    var s := w + [sep] + rest;
    if |w| == 0 {
      assert s == [sep] + rest;
      assert s[1..] == rest;
    } else {
      assert sep !in w[1..] by {
        forall c | c in w[1..] ensures c != sep { }
      }
      SplitAfterWord(w[1..], sep, rest);
      assert s[1..] == w[1..] + [sep] + rest;
      assert s[0] == w[0] && s[0] != sep;
      var tail := Split(s[1..], sep);
      assert tail == [w[1..]] + Split(rest, sep);
      assert [s[0]] + tail[0] == w;
      assert tail[1..] == Split(rest, sep);
    }
  }

  // ---------------------------------------------------------------------
  // The routes' regular expressions
  // ---------------------------------------------------------------------

  /** The position of the first `c` in `s`, or `|s|` when there is none. */
  function IndexOf(s: string, c: char): (i: nat)
    ensures i <= |s|
    ensures i < |s| ==> s[i] == c
    ensures c !in s[..i]
  {
    if |s| == 0 then 0
    else if s[0] == c then 0
    else
      var i := 1 + IndexOf(s[1..], c);
      assert s[..i] == [s[0]] + s[1..][..i - 1];
      i
  }

  /** `/^[^\s@]+@[^\s@]+\.[^\s@]+$/`: no white space, exactly one `@` with
      something before it, and a dot after the `@` with at least one
      character on each side of it. */
  predicate IsEmailShape(s: string) {
    var at := IndexOf(s, '@');
    && (forall k :: 0 <= k < |s| ==> !IsSpace(s[k]))
    && 0 < at && at + 4 <= |s|
    && '@' !in s[at + 1..]
    && '.' in s[at + 2..|s| - 1]
  }

  /** `/^\+233\d{9}$/`: the prefix `+233` followed by exactly nine digits. */
  predicate IsGhanaPhone(s: string) {
    |s| == 13 && s[..4] == "+233" && AllDigits(s[4..])
  }

  lemma EmptyFailsPatterns()
    ensures !IsEmailShape("") && !IsGhanaPhone("")
  {
  }
}
