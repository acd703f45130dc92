/** Turning the engine's segments into the text that is typed:
    `" ".join([segment.text.strip() for segment in segments])`. */
module Segments {

  /** The characters Python's `str.isspace` accepts, which is what
      `str.strip()` without arguments removes. */
  predicate IsSpace(c: char)
  {
    ('\t' <= c <= '\r') || ('\U{1c}' <= c <= ' ') || c == '\U{85}' || c == '\U{a0}'
    || c == '\U{1680}' || ('\U{2000}' <= c <= '\U{200a}') || c == '\U{2028}' || c == '\U{2029}'
    || c == '\U{202f}' || c == '\U{205f}' || c == '\U{3000}'
  }

  predicate AllSpace(s: string)
  {
    forall k :: 0 <= k < |s| ==> IsSpace(s[k])
  }

  /** Length of the longest all-whitespace prefix. */
  function LeadingSpaces(s: string): (n: nat)
    ensures n <= |s|
    ensures AllSpace(s[..n])
    ensures n < |s| ==> !IsSpace(s[n])
  {
    if s == [] || !IsSpace(s[0]) then 0 else 1 + LeadingSpaces(s[1..])
  }

  /** Length of the longest all-whitespace suffix. */
  function TrailingSpaces(s: string): (n: nat)
    ensures n <= |s|
    ensures AllSpace(s[|s| - n..])
    ensures n < |s| ==> !IsSpace(s[|s| - 1 - n])
  {
    if s == [] || !IsSpace(s[|s| - 1]) then 0 else 1 + TrailingSpaces(s[..|s| - 1])
  }

  /** `str.strip()`: drop leading and trailing whitespace. */
  function Strip(s: string): (r: string)
    ensures |r| <= |s|
    ensures r == [] || (!IsSpace(r[0]) && !IsSpace(r[|r| - 1]))
  {
    var a := LeadingSpaces(s);
    if a == |s| then []
    else
      var t := TrailingSpaces(s);
      assert |s| - t > a;
      s[a..|s| - t]
  }

  /** Strip removes whitespace only, and only at the two ends: the input is
      the result with a whitespace prefix and a whitespace suffix around it,
      and the result is empty exactly when the input is all whitespace. */
  lemma StripTrimsExactly(s: string)
    ensures var r, a := Strip(s), LeadingSpaces(s);
      a + |r| <= |s| && s == s[..a] + r + s[a + |r|..]
      && AllSpace(s[..a]) && AllSpace(s[a + |r|..])
    ensures Strip(s) == [] <==> AllSpace(s)
  {
    var r, a := Strip(s), LeadingSpaces(s);
    if a == |s| {
      assert s[..a] == s;
    } else {
      var t := TrailingSpaces(s);
      assert a + |r| == |s| - t;
      assert s == s[..a] + r + s[a + |r|..];
      assert !AllSpace(s) by { assert !IsSpace(s[a]); }
    }
  }

  /** Stripping twice is stripping once. */
  lemma StripIdempotent(s: string)
    ensures Strip(Strip(s)) == Strip(s)
  {
    var r := Strip(s);
    if r != [] {
      assert LeadingSpaces(r) == 0;
      assert TrailingSpaces(r) == 0;
      assert r[0..|r|] == r;
    }
  }

  /** `sep.join(xs)`. */
  function Join(sep: string, xs: seq<string>): string
  {
    if xs == [] then []
    else if |xs| == 1 then xs[0]
    else xs[0] + sep + Join(sep, xs[1..])
  }

  function TotalLength(xs: seq<string>): nat
  {
    if xs == [] then 0 else |xs[0]| + TotalLength(xs[1..])
  }

  /** The joined string holds every piece and one separator between each
      neighbouring pair. */
  lemma {:induction false} JoinLength(sep: string, xs: seq<string>)
    requires xs != []
    ensures |Join(sep, xs)| == TotalLength(xs) + |sep| * (|xs| - 1)
  {
    if |xs| > 1 {
      JoinLength(sep, xs[1..]);
    }
  }

  /** Adding a piece at the end adds a separator and that piece at the end:
      the pieces appear in list order. */
  lemma {:induction false} JoinSnoc(sep: string, xs: seq<string>, y: string)
    requires xs != []
    ensures Join(sep, xs + [y]) == Join(sep, xs) + sep + y
  {
    if |xs| == 1 {
      assert (xs + [y])[1..] == [y];
    } else {
      assert (xs + [y])[1..] == xs[1..] + [y];
      JoinSnoc(sep, xs[1..], y);
    }
  }

  /** With a non-empty separator the join is empty only for no pieces or a
      single empty piece. */
  lemma {:induction false} JoinEmptyIff(sep: string, xs: seq<string>)
    requires sep != []
    ensures Join(sep, xs) == [] <==> |xs| == 0 || (|xs| == 1 && xs[0] == [])
  {
    if |xs| > 1 {
      assert |Join(sep, xs)| >= |sep|;
    }
  }

  function StripAll(segs: seq<string>): (r: seq<string>)
    ensures |r| == |segs|
    ensures forall i :: 0 <= i < |segs| ==> r[i] == Strip(segs[i])
  {
    if segs == [] then [] else [Strip(segs[0])] + StripAll(segs[1..])
  }

  /** The text built from the engine's segment texts. */
  function SegmentText(segs: seq<string>): string
  {
    Join(" ", StripAll(segs))
  }

  /** The text is non-empty, and therefore typed, exactly when there are two
      or more segments (even blank ones, which join to spaces) or a single
      segment that is not all whitespace. */
  lemma SegmentTextNonEmptyIff(segs: seq<string>)
    ensures SegmentText(segs) != [] <==> |segs| >= 2 || (|segs| == 1 && !AllSpace(segs[0]))
  {
    JoinEmptyIff(" ", StripAll(segs));
    if |segs| == 1 {
      StripTrimsExactly(segs[0]);
    }
  }

  /** A later segment's text comes after an earlier one's, one space apart. */
  lemma SegmentTextSnoc(segs: seq<string>, seg: string)
    requires segs != []
    ensures SegmentText(segs + [seg]) == SegmentText(segs) + " " + Strip(seg)
  {
    assert StripAll(segs + [seg]) == StripAll(segs) + [Strip(seg)];
    JoinSnoc(" ", StripAll(segs), Strip(seg));
  }

  /** The worked example: `"hello "` and `" world"` give `"hello world"`. */
  lemma HelloWorld()
    ensures SegmentText(["hello ", " world"]) == "hello world"
  {
    assert LeadingSpaces("hello ") == 0;
    assert TrailingSpaces("hello ") == 1;
    assert Strip("hello ") == "hello";
    assert LeadingSpaces(" world") == 1;
    assert TrailingSpaces(" world") == 0;
    assert Strip(" world") == "world";
    assert StripAll(["hello ", " world"]) == ["hello", "world"];
  }
}
