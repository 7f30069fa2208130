/** Python's `str.strip()` with no argument, as the handlers use it to
    trim rendered text. */
module PyStrings {

  /** The code points for which Python's `str.isspace()` holds. */
  predicate IsSpace(c: char) {
    || ('\t' <= c <= '\r')
    || ('\U{1C}' <= c <= ' ')
    || c == '\U{85}' || c == '\U{A0}' || c == '\U{1680}'
    || ('\U{2000}' <= c <= '\U{200A}')
    || c == '\U{2028}' || c == '\U{2029}' || c == '\U{202F}'
    || c == '\U{205F}' || c == '\U{3000}'
  }

  /** True iff every character of `s` is whitespace (also for ""). */
  predicate Blank(s: string) {
    forall k :: 0 <= k < |s| ==> IsSpace(s[k])
  }

  /** `s` without its leading whitespace. */
  function StripLeft(s: string): (r: string)
    ensures |r| <= |s| && r == s[|s| - |r|..]
    ensures Blank(s[..|s| - |r|])
    ensures r == [] || !IsSpace(r[0])
  {
    if s != [] && IsSpace(s[0]) then StripLeft(s[1..]) else s
  }

  /** `s` without its trailing whitespace. */
  function StripRight(s: string): (r: string)
    ensures |r| <= |s| && r == s[..|r|]
    ensures Blank(s[|r|..])
    ensures r == [] || !IsSpace(r[|r| - 1])
  {
    if s != [] && IsSpace(s[|s| - 1]) then StripRight(s[..|s| - 1]) else s
  }

  /** `s.strip()`: `s` without its leading and trailing whitespace. */
  function Strip(s: string): (r: string)
    ensures r == [] <==> Blank(s)
    ensures r != [] ==> !IsSpace(r[0]) && !IsSpace(r[|r| - 1])
  {
    var left := StripLeft(s);
    assert Blank(left) ==> Blank(s) by {
      if Blank(left) {
        assert left == [];
        assert s[..|s|] == s;
      }
    }
    StripRight(left)
  }

  /** Leading whitespace never changes what `StripLeft` keeps. */
  lemma {:induction false} StripLeftSkips(pad: string, s: string)
    requires Blank(pad)
    ensures StripLeft(pad + s) == StripLeft(s)
  {
    if pad != [] {
      assert (pad + s)[1..] == pad[1..] + s;
      StripLeftSkips(pad[1..], s);
    } else {
      assert pad + s == s;
    }
  }

  /** Trailing whitespace never changes what `StripRight` keeps. */
  lemma {:induction false} StripRightSkips(s: string, pad: string)
    requires Blank(pad)
    ensures StripRight(s + pad) == StripRight(s)
  {
    if pad != [] {
      assert (s + pad)[..|s + pad| - 1] == s + pad[..|pad| - 1];
      StripRightSkips(s, pad[..|pad| - 1]);
    } else {
      assert s + pad == s;
    }
  }

  /** Once `s` has a visible character, `StripLeft` stops inside it. */
  lemma {:induction false} StripLeftStopsEarly(s: string, tail: string)
    requires !Blank(s)
    ensures StripLeft(s + tail) == StripLeft(s) + tail
  {
    if IsSpace(s[0]) {
      assert (s + tail)[1..] == s[1..] + tail;
      assert !Blank(s[1..]) by {
        var k :| 0 <= k < |s| && !IsSpace(s[k]);
        assert s[1..][k - 1] == s[k];
      }
      StripLeftStopsEarly(s[1..], tail);
    }
  }

  /** `strip` ignores whitespace padding on both sides. */
  lemma StripIgnoresPadding(pre: string, s: string, post: string)
    requires Blank(pre) && Blank(post)
    ensures Strip(pre + s + post) == Strip(s)
  {
    assert pre + s + post == pre + (s + post);
    StripLeftSkips(pre, s + post);
    if Blank(s) {
      assert Blank(s + post);
      assert Strip(s + post) == [];
    } else {
      StripLeftStopsEarly(s, post);
      StripRightSkips(StripLeft(s), post);
    }
  }
}
