/** Small string readers shared by the naming and the card modules. */
module Text {
  import opened Wrappers

  /** The longest prefix of `s` that does not contain `c`: what a reader
      scanning `s` for the delimiter `c` collects before it stops. */
  function TakeUntil(s: string, c: char): (r: string)
    ensures r <= s
    ensures c !in r
    ensures |r| < |s| ==> s[|r|] == c
  {
    if s == [] then []
    else if s[0] == c then []
    else [s[0]] + TakeUntil(s[1..], c)
  }

  /** Scanning `x + w` for `c`, when `w` is empty or starts with `c`, reads
      no further than scanning `x` alone: all of `x` exactly when `x` does
      not contain `c`. */
  lemma {:induction false} TakeUntilConcat(x: string, w: string, c: char)
    requires w == [] || w[0] == c
    ensures TakeUntil(x + w, c) == TakeUntil(x, c)
    ensures TakeUntil(x, c) == x <==> c !in x
  {
    if x != [] {
      assert (x + w)[0] == x[0];
      assert (x + w)[1..] == x[1..] + w;
      TakeUntilConcat(x[1..], w, c);
    }
  }

  /** Splits `s` at its first `c`: the text before it, and the rest, which
      is empty or starts with `c`. */
  function SplitAt(s: string, c: char): (r: (string, string))
    ensures r.0 + r.1 == s && c !in r.0
    ensures r.1 == [] || r.1[0] == c
  {
    var f := TakeUntil(s, c);
    (f, s[|f|..])
  }

  lemma SplitAtConcat(x: string, w: string, c: char)
    requires c !in x
    requires w == [] || w[0] == c
    ensures SplitAt(x + w, c) == (x, w)
  {
    TakeUntilConcat(x, w, c);
  }

  /** What follows the fixed text `p` at the start of `s`, if `s` starts with it. */
  function Expect(p: string, s: string): (r: Option<string>)
    ensures r.Some? <==> p <= s
    ensures r.Some? ==> s == p + r.value
  {
    if p <= s then Some(s[|p|..]) else None
  }

  lemma ExpectConcat(p: string, x: string)
    ensures Expect(p, p + x) == Some(x)
  {
  }

  /** Everything after the last `c` in `s`, or all of `s` when it has none:
      what a reader scanning `s` backwards for `c` collects. */
  function AfterLast(s: string, c: char): (r: string)
    ensures |r| <= |s| && r == s[|s| - |r|..]
    ensures c !in r
    ensures |r| < |s| ==> s[|s| - |r| - 1] == c
  {
    if s == [] then []
    else if s[|s| - 1] == c then []
    else
      var init := AfterLast(s[..|s| - 1], c);
      assert s[..|s| - 1][|s| - 1 - |init|..] + [s[|s| - 1]] == s[|s| - 1 - |init|..];
      init + [s[|s| - 1]]
  }

  /** Scanning `x + [c] + w` backwards for `c` stops right after that `c`
      when `w` does not contain `c`. */
  lemma {:induction false} AfterLastConcat(x: string, c: char, w: string)
    requires c !in w
    ensures AfterLast(x + [c] + w, c) == w
  {
    var s := x + [c] + w;
    if w == [] {
      assert s[|s| - 1] == c;
    } else {
      var last := w[|w| - 1];
      assert s[|s| - 1] == last;
      assert s[..|s| - 1] == x + [c] + w[..|w| - 1];
      AfterLastConcat(x, c, w[..|w| - 1]);
      assert w == w[..|w| - 1] + [last];
    }
  }

  /** The last component of a slash-separated path. */
  function BaseName(p: string): string
  {
    AfterLast(p, '/')
  }
}
