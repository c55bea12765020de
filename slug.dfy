/** The filename slug built at upload time:
    `title.toLowerCase().replace(/\s+/g, "-") + ".mp4"`. */
module Slug {

  /** ECMAScript's `\s` class: tab, line feed, vertical tab, form feed,
      carriage return, space, no-break space, ogham space mark, the
      en quad .. hair space block, line and paragraph separators, narrow
      no-break space, medium mathematical space, ideographic space and the
      byte order mark. */
  predicate IsSpace(c: char)
    ensures IsSpace(c) ==> c != '-' && c != '.' && !IsUpper(c) && !('a' <= c <= 'z') && !('0' <= c <= '9')
  {
    var n := c as int;
    (0x09 <= n <= 0x0D) || n == 0x20 || n == 0xA0 || n == 0x1680
    || (0x2000 <= n <= 0x200A) || n == 0x2028 || n == 0x2029
    || n == 0x202F || n == 0x205F || n == 0x3000 || n == 0xFEFF
  }

  predicate IsUpper(c: char) {
    'A' <= c <= 'Z'
  }

  predicate NoUpper(s: string) {
    forall i :: 0 <= i < |s| ==> !IsUpper(s[i])
  }

  predicate NoSpace(s: string) {
    forall i :: 0 <= i < |s| ==> !IsSpace(s[i])
  }

  predicate AllSpace(s: string) {
    forall i :: 0 <= i < |s| ==> IsSpace(s[i])
  }

  /** True when `s` is empty or its last character is not whitespace. */
  predicate EndsSolid(s: string) {
    s == [] || !IsSpace(s[|s| - 1])
  }

  /** True when `s` is empty or its first character is not whitespace. */
  predicate StartsSolid(s: string) {
    s == [] || !IsSpace(s[0])
  }

  /** `toLowerCase` on one character, for the ASCII letters. */
  function LowerChar(c: char): (r: char)
    ensures !IsUpper(r)
    ensures IsSpace(r) <==> IsSpace(c)
    ensures !IsUpper(c) ==> r == c
    ensures IsUpper(c) ==> 'a' <= r <= 'z' && r as int - c as int == 'a' as int - 'A' as int
  {
    if IsUpper(c) then (c as int - 'A' as int + 'a' as int) as char else c
  }

  /** `toLowerCase` on a string: same length, every upper-case ASCII letter
      mapped to its lower-case form, everything else kept. */
  function Lower(s: string): (r: string)
    ensures |r| == |s|
    ensures forall i :: 0 <= i < |s| ==> r[i] == LowerChar(s[i])
    ensures NoUpper(r)
    ensures forall i :: 0 <= i < |s| ==> (IsSpace(r[i]) <==> IsSpace(s[i]))
  {
    seq(|s|, i requires 0 <= i < |s| => LowerChar(s[i]))
  }

  /** Drops the whitespace run at the front of `s`. */
  function SkipSpaces(s: string): (r: string)
    ensures |r| <= |s| && r == s[|s| - |r|..]
    ensures StartsSolid(r)
  {
    if s != [] && IsSpace(s[0]) then SkipSpaces(s[1..]) else s
  }

  /** `replace(/\s+/g, "-")`: every maximal run of whitespace becomes one
      hyphen; every other character is kept in place. The result has no
      whitespace at all. */
  function CollapseSpaces(s: string): (r: string)
    ensures NoSpace(r)
    ensures |r| <= |s|
    decreases |s|
  {
    if s == [] then ""
    else if IsSpace(s[0]) then "-" + CollapseSpaces(SkipSpaces(s[1..]))
    else [s[0]] + CollapseSpaces(s[1..])
  }

  /** The stored filename of an uploaded video with this title. */
  function Filename(title: string): (r: string)
    ensures NoSpace(r)
    ensures |r| >= 4 && r[|r| - 4..] == ".mp4"
    ensures NoUpper(r)
  {
    var slug := CollapseSpaces(Lower(title));
    CollapseNoUpper(Lower(title));
    slug + ".mp4"
  }

  /** Collapsing introduces no upper-case letter. */
  lemma {:induction false} CollapseNoUpper(s: string)
    requires NoUpper(s)
    ensures NoUpper(CollapseSpaces(s))
    decreases |s|
  {
    if s != [] {
      if IsSpace(s[0]) {
        CollapseNoUpper(SkipSpaces(s[1..]));
      } else {
        CollapseNoUpper(s[1..]);
      }
    }
  }

  /** A string without whitespace is left as it is. */
  lemma {:induction false} CollapseSolid(s: string)
    requires NoSpace(s)
    ensures CollapseSpaces(s) == s
    decreases |s|
  {
    if s != [] {
      CollapseSolid(s[1..]);
    }
  }

  /** A nonempty whitespace run followed by something that does not start
      with whitespace is skipped exactly. */
  lemma {:induction false} SkipRun(w: string, b: string)
    requires AllSpace(w) && StartsSolid(b)
    ensures SkipSpaces(w + b) == b
    decreases |w|
  {
    if w == [] {
      assert w + b == b;
    } else {
      assert (w + b)[1..] == w[1..] + b;
      SkipRun(w[1..], b);
    }
  }

  /** Skipping leading whitespace stops inside `a` when `a` ends with a
      non-whitespace character. */
  lemma {:induction false} SkipInside(a: string, b: string)
    requires a != [] && EndsSolid(a)
    ensures SkipSpaces(a + b) == SkipSpaces(a) + b
    ensures SkipSpaces(a) != [] && EndsSolid(SkipSpaces(a))
    decreases |a|
  {
    if IsSpace(a[0]) {
      assert |a| > 1;
      assert (a + b)[1..] == a[1..] + b;
      SkipInside(a[1..], b);
    }
  }

  /** One unfolding step of `CollapseSpaces` at a leading character. */
  lemma CollapseCons(c: char, t: string)
    ensures IsSpace(c) ==> CollapseSpaces([c] + t) == "-" + CollapseSpaces(SkipSpaces(t))
    ensures !IsSpace(c) ==> CollapseSpaces([c] + t) == [c] + CollapseSpaces(t)
  {
  }

  /** Collapsing distributes over concatenation where the cut does not
      split a whitespace run on the left side. */
  lemma {:induction false} CollapseAppend(a: string, b: string)
    requires EndsSolid(a)
    ensures CollapseSpaces(a + b) == CollapseSpaces(a) + CollapseSpaces(b)
    decreases |a|
  {
    if a == [] {
      assert a + b == b;
    } else if IsSpace(a[0]) {
      CollapseAppendSpace(a, b);
    } else {
      var t := a[1..];
      assert a == [a[0]] + t;
      assert a + b == [a[0]] + (t + b);
      CollapseCons(a[0], t);
      CollapseCons(a[0], t + b);
      CollapseAppend(t, b);
    }
  }

  /** The step of `CollapseAppend` where `a` starts with whitespace. */
  lemma {:induction false} CollapseAppendSpace(a: string, b: string)
    requires a != [] && IsSpace(a[0]) && EndsSolid(a)
    ensures CollapseSpaces(a + b) == CollapseSpaces(a) + CollapseSpaces(b)
    decreases |a|, 0
  {
    var c, t := a[0], a[1..];
    assert a == [c] + t;
    assert a + b == [c] + (t + b);
    SkipInside(t, b);
    var u := SkipSpaces(t);
    calc {
      CollapseSpaces(a + b);
      { CollapseCons(c, t + b); }
      "-" + CollapseSpaces(u + b);
      { CollapseAppend(u, b); }
      "-" + (CollapseSpaces(u) + CollapseSpaces(b));
      ("-" + CollapseSpaces(u)) + CollapseSpaces(b);
      { CollapseCons(c, t); }
      CollapseSpaces(a) + CollapseSpaces(b);
    }
  }

  /** A whitespace run at the front collapses to one hyphen. */
  lemma CollapseLeadingRun(w: string, b: string)
    requires w != [] && AllSpace(w) && StartsSolid(b)
    ensures CollapseSpaces(w + b) == "-" + CollapseSpaces(b)
  {
    assert w + b == [w[0]] + (w[1..] + b);
    CollapseCons(w[0], w[1..] + b);
    SkipRun(w[1..], b);
  }

  /** The defining property of `/\s+/g -> "-"`: a maximal whitespace run
      `w` between `a` and `b` is replaced by exactly one hyphen. */
  lemma CollapseRun(a: string, w: string, b: string)
    requires EndsSolid(a) && StartsSolid(b)
    requires w != [] && AllSpace(w)
    ensures CollapseSpaces(a + w + b) == CollapseSpaces(a) + "-" + CollapseSpaces(b)
  {
    assert a + w + b == a + (w + b);
    CollapseAppend(a, w + b);
    CollapseLeadingRun(w, b);
  }

  /** A two-word title: the words are lowercased and joined by one
      hyphen, whatever whitespace run separated them. */
  lemma TwoWordFilename(a: string, w: string, b: string)
    requires NoSpace(a) && NoSpace(b)
    requires w != [] && AllSpace(w)
    ensures Filename(a + w + b) == Lower(a) + "-" + Lower(b) + ".mp4"
  {
    var la, lw, lb := Lower(a), Lower(w), Lower(b);
    assert Lower(a + w + b) == la + lw + lb;
    CollapseSolid(la);
    CollapseSolid(lb);
    CollapseRun(la, lw, lb);
  }

  /** An example upload: the title "My Clip" is
      stored as "my-clip.mp4". */
  lemma MyClipFilename()
    ensures Filename("My Clip") == "my-clip.mp4"
  {
    var a, w, b := "My", " ", "Clip";
    assert "My Clip" == a + w + b;
    TwoWordFilename(a, w, b);
    assert Lower(a) == "my";
    assert Lower(b) == "clip";
    assert "my" + "-" + "clip" + ".mp4" == "my-clip.mp4";
  }
}
