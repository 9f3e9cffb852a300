/** `StringExt::trim_end_inplace` of src/helper.rs. */
module Helper {

  /** Rust's `char::is_whitespace`: the Unicode White_Space property. */
  predicate IsWhitespace(c: char) {
    || c == ' '
    || ('\t' <= c <= '\r')
    || c == '\U{85}'
    || c == '\U{A0}'
    || c == '\U{1680}'
    || ('\U{2000}' <= c <= '\U{200A}')
    || c == '\U{2028}'
    || c == '\U{2029}'
    || c == '\U{202F}'
    || c == '\U{205F}'
    || c == '\U{3000}'
  }

  predicate AllWhitespace(s: string) {
    forall i :: 0 <= i < |s| ==> IsWhitespace(s[i])
  }

  /** `s.trim_end()`: `s` with its trailing whitespace removed. */
  function TrimEnd(s: string): (t: string)
    ensures t <= s
    ensures AllWhitespace(s[|t|..])
    ensures t == [] || !IsWhitespace(t[|t| - 1])
  {
    if |s| > 0 && IsWhitespace(s[|s| - 1]) then TrimEnd(s[..|s| - 1]) else s
  }

  /** `trim_end_inplace`: scan back over trailing whitespace, then truncate. */
  method TrimEndInPlace(s: string) returns (t: string)
    ensures t == TrimEnd(s)
  {
    var n := |s|;
    while n > 0 && IsWhitespace(s[n - 1])
      invariant 0 <= n <= |s|
      invariant TrimEnd(s[..n]) == TrimEnd(s)
    {
      assert s[..n][..n - 1] == s[..n - 1];
      n := n - 1;
    }
    t := s[..n];
  }

  /** TrimEnd is the only way to split `s` into a prefix that does not end in
      whitespace and an all-whitespace tail. */
  lemma {:induction false} TrimEndUnique(p: string, w: string)
    requires AllWhitespace(w)
    requires p == [] || !IsWhitespace(p[|p| - 1])
    ensures TrimEnd(p + w) == p
  {
    if w == [] {
      assert p + w == p;
    } else {
      var s := p + w;
      assert s[..|s| - 1] == p + w[..|w| - 1];
      TrimEndUnique(p, w[..|w| - 1]);
    }
  }

  /** Trimming twice is trimming once. */
  lemma TrimEndIdempotent(s: string)
    ensures TrimEnd(TrimEnd(s)) == TrimEnd(s)
  {
    var t := TrimEnd(s);
    assert t + [] == t;
    TrimEndUnique(t, []);
  }

  /** A string of whitespace only trims to the empty string. */
  lemma {:induction false} TrimEndAllWhitespace(s: string)
    requires AllWhitespace(s)
    ensures TrimEnd(s) == []
  {
    if s != [] {
      TrimEndAllWhitespace(s[..|s| - 1]);
    }
  }

  /** The unit test of src/helper.rs. */
  lemma TrimEndExample()
    ensures TrimEnd("test string \n\n") == "test string"
  {
    assert "test string \n\n" == "test string" + " \n\n";
    TrimEndUnique("test string", " \n\n");
  }
}
