/** String helpers shared by both scripts: Python's substring test
    `needle in hay` and the blank test `name.strip() == ""`. */
module Text {

  /** `needle` occurs in `hay` starting at index `i`. */
  ghost predicate OccursAt(needle: string, hay: string, i: int)
  {
    0 <= i && i + |needle| <= |hay| && hay[i..i + |needle|] == needle
  }

  predicate IsPrefix(p: string, s: string)
  {
    |p| <= |s| && s[..|p|] == p
  }

  /** Python's `needle in hay` on strings: true exactly when `needle`
      occurs somewhere in `hay` (the empty string occurs everywhere). */
  function Contains(hay: string, needle: string): (r: bool)
    ensures r <==> exists i :: OccursAt(needle, hay, i)
    decreases |hay|
  {
    if IsPrefix(needle, hay) then
      assert OccursAt(needle, hay, 0);
      true
    else if hay == [] then
      false
    else
      OccursAfterHead(needle, hay);
      Contains(hay[1..], needle)
  }

  /** When `needle` is not a prefix of `hay`, it occurs in `hay` exactly
      when it occurs in `hay` without its first character. */
  lemma OccursAfterHead(needle: string, hay: string)
    requires hay != [] && !IsPrefix(needle, hay)
    ensures (exists i :: OccursAt(needle, hay, i)) <==> (exists i :: OccursAt(needle, hay[1..], i))
  {
    if i :| OccursAt(needle, hay[1..], i) {
      assert hay[1..][i..i + |needle|] == hay[i + 1..i + 1 + |needle|];
      assert OccursAt(needle, hay, i + 1);
    }
    if i :| OccursAt(needle, hay, i) {
      assert i != 0;
      assert hay[1..][i - 1..i - 1 + |needle|] == hay[i..i + |needle|];
      assert OccursAt(needle, hay[1..], i - 1);
    }
  }

  /** A needle whose first character never appears in `hay` does not occur in it. */
  lemma FirstCharMissing(needle: string, hay: string)
    requires needle != [] && needle[0] !in hay
    ensures !Contains(hay, needle)
  {
  }

  /** The characters Python's `str.strip()` removes (those for which
      `str.isspace()` holds). ASCII whitespace is among them; letters,
      digits and Hangul syllables are not, so a typed name is never
      shortened in its middle. */
  predicate IsSpace(c: char): (r: bool)
    ensures c == ' ' || c == '\t' || c == '\n' || c == '\r' ==> r
    ensures ('0' <= c <= '9') || ('A' <= c <= 'Z') || ('a' <= c <= 'z') || ('\U{AC00}' <= c <= '\U{D7A3}') ==> !r
  {
    c == ' ' || c == '\t' || c == '\n' || c == '\r' || c == '\U{B}' || c == '\U{C}'
    || ('\U{1C}' <= c <= '\U{1F}') || c == '\U{85}' || c == '\U{A0}' || c == '\U{1680}'
    || ('\U{2000}' <= c <= '\U{200A}') || c == '\U{2028}' || c == '\U{2029}' || c == '\U{202F}'
    || c == '\U{205F}' || c == '\U{3000}'
  }

  /** `s[i..j]` is what is left of `s` once the spaces before `i` and
      from `j` on are cut. */
  ghost predicate Trims(s: string, i: int, j: int)
  {
    && 0 <= i <= j <= |s|
    && (forall k :: 0 <= k < i ==> IsSpace(s[k]))
    && (forall k :: j <= k < |s| ==> IsSpace(s[k]))
  }

  /** Python's `s.strip()`: `s` without its leading and trailing spaces. */
  function Strip(s: string): (r: string)
    ensures exists i, j :: Trims(s, i, j) && r == s[i..j]
    ensures r == [] || (!IsSpace(r[0]) && !IsSpace(r[|r| - 1]))
    decreases |s|
  {
    if s == [] then
      assert Trims(s, 0, 0) && [] == s[0..0];
      []
    else if IsSpace(s[0]) then
      var t := Strip(s[1..]);
      TrimsDropFirst(s, t);
      t
    else if IsSpace(s[|s| - 1]) then
      var t := Strip(s[..|s| - 1]);
      TrimsDropLast(s, s[..|s| - 1], t);
      t
    else
      assert Trims(s, 0, |s|) && s == s[0..|s|];
      s
  }

  /** A leading space is cut along with those of the rest. */
  lemma TrimsDropFirst(s: string, t: string)
    requires s != [] && IsSpace(s[0])
    requires exists i, j :: Trims(s[1..], i, j) && t == s[1..][i..j]
    ensures exists i, j :: Trims(s, i, j) && t == s[i..j]
  {
    var i, j :| Trims(s[1..], i, j) && t == s[1..][i..j];
    assert s[1..][i..j] == s[i + 1..j + 1];
    assert Trims(s, i + 1, j + 1);
  }

  /** A trailing space is cut along with those of the rest. */
  lemma TrimsDropLast(s: string, front: string, t: string)
    requires s != [] && IsSpace(s[|s| - 1]) && front == s[..|s| - 1]
    requires exists i, j :: Trims(front, i, j) && t == front[i..j]
    ensures exists i, j :: Trims(s, i, j) && t == s[i..j]
  {
    var i, j :| Trims(front, i, j) && t == front[i..j];
    assert front[i..j] == s[i..j];
    assert Trims(s, i, j);
  }

  /** `s.strip() == ""` holds exactly when every character of `s` is a space. */
  lemma {:induction false} StripEmptyIffAllSpace(s: string)
    ensures Strip(s) == [] <==> forall k :: 0 <= k < |s| ==> IsSpace(s[k])
    decreases |s|
  {
    if s == [] {
    } else if IsSpace(s[0]) {
      StripEmptyIffAllSpace(s[1..]);
      assert forall k :: 1 <= k < |s| ==> s[k] == s[1..][k - 1];
    } else if IsSpace(s[|s| - 1]) {
      StripEmptyIffAllSpace(s[..|s| - 1]);
      assert forall k :: 0 <= k < |s| - 1 ==> s[k] == s[..|s| - 1][k];
    } else {
    }
  }
}
