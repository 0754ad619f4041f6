/** The markup stripper of the template excerpt: the global regular-expression
    replacement `replace(/<\/?[^>]+(>|$)/g, "")`.

    Scanning left to right, a match starts at a `<` whose next character exists
    and is not `>`; it runs through the first later `>` (inclusive) or, when
    there is none, to the end of the string, and is deleted. Any other
    character, including a `<` that is last or directly followed by `>`, is
    kept and scanning resumes after it. The character class `[^>]` also
    matches `<` and line breaks, so a match swallows those. */
module TagStrip {

  /** What follows the first `>` of `t`; empty when `t` has no `>`. */
  function AfterClose(t: string): (r: string)
    ensures |r| <= |t|
    ensures r == t[|t| - |r|..]
  {
    if t == [] then []
    else if t[0] == '>' then t[1..]
    else AfterClose(t[1..])
  }

  /** A match of the pattern starts at the front of `s`. */
  predicate StartsTag(s: string) {
    |s| >= 2 && s[0] == '<' && s[1] != '>'
  }

  /** The string with every match of the pattern removed. */
  function StripTags(s: string): (r: string)
    ensures |r| <= |s|
    decreases |s|
  {
    if s == [] then []
    else if StartsTag(s) then StripTags(AfterClose(s[2..]))
    else [s[0]] + StripTags(s[1..])
  }

  /** `a` can be obtained from `b` by deleting characters. */
  predicate IsSubsequence(a: string, b: string)
    decreases |b|
  {
    if a == [] then true
    else if b == [] then false
    else (a[0] == b[0] && IsSubsequence(a[1..], b[1..])) || IsSubsequence(a, b[1..])
  }

  /** No match of the pattern starts anywhere in `s`: every `<` is the last
      character or is directly followed by `>`. */
  predicate TagFree(s: string) {
    forall i :: 0 <= i < |s| - 1 && s[i] == '<' ==> s[i + 1] == '>'
  }

  lemma {:induction false} SubsequenceOfLonger(a: string, c: string, b: string)
    requires IsSubsequence(a, b)
    ensures IsSubsequence(a, c + b)
    decreases |c|
  {
    if c == [] {
      assert c + b == b;
    } else if a != [] {
      SubsequenceOfLonger(a, c[1..], b);
      assert (c + b)[1..] == c[1..] + b;
    }
  }

  lemma KeepFirst(c: char, a: string, b: string)
    requires IsSubsequence(a, b)
    ensures IsSubsequence([c] + a, [c] + b)
  {
    assert ([c] + a)[1..] == a && ([c] + b)[1..] == b;
  }

  /** Stripping only deletes characters: the output is a subsequence of the
      input. */
  lemma {:induction false} StripTagsIsSubsequence(s: string)
    ensures IsSubsequence(StripTags(s), s)
    decreases |s|
  {
    if s == [] {
    } else if StartsTag(s) {
      var t := AfterClose(s[2..]);
      assert t == s[|s| - |t|..];
      StripTagsIsSubsequence(t);
      SubsequenceOfLonger(StripTags(t), s[..|s| - |t|], t);
      assert s[..|s| - |t|] + t == s;
    } else {
      StripTagsIsSubsequence(s[1..]);
      KeepFirst(s[0], StripTags(s[1..]), s[1..]);
      assert [s[0]] + s[1..] == s;
    }
  }

  /** Stripping leaves no match behind. */
  lemma {:induction false} StripTagsIsTagFree(s: string)
    ensures TagFree(StripTags(s))
    decreases |s|
  {
    if s == [] {
    } else if StartsTag(s) {
      StripTagsIsTagFree(AfterClose(s[2..]));
    } else {
      StripTagsIsTagFree(s[1..]);
      var rest := StripTags(s[1..]);
      var r := StripTags(s);
      assert r == [s[0]] + rest;
      if s[0] == '<' && |s| >= 2 {
        assert s[1..][0] == '>' && !StartsTag(s[1..]);
        assert rest[0] == '>';
      }
      forall i | 0 <= i < |r| - 1 && r[i] == '<'
        ensures r[i + 1] == '>'
      {
        if i > 0 {
          assert r[i] == rest[i - 1] && r[i + 1] == rest[i];
        }
      }
    }
  }

  /** A string without matches is left as it is. */
  lemma {:induction false} TagFreeUnchanged(s: string)
    requires TagFree(s)
    ensures StripTags(s) == s
    decreases |s|
  {
    if s != [] {
      assert !StartsTag(s) by {
        if |s| >= 2 && s[0] == '<' {
          assert s[1] == '>';
        }
      }
      assert TagFree(s[1..]) by {
        forall i | 0 <= i < |s[1..]| - 1 && s[1..][i] == '<'
          ensures s[1..][i + 1] == '>'
        {
          assert s[i + 1] == '<';
        }
      }
      TagFreeUnchanged(s[1..]);
    }
  }

  /** In particular a string without any `<` is left as it is. */
  lemma NoOpenerUnchanged(s: string)
    requires '<' !in s
    ensures StripTags(s) == s
  {
    TagFreeUnchanged(s);
  }

  /** Stripping twice is stripping once. */
  lemma StripTagsIdempotent(s: string)
    ensures StripTags(StripTags(s)) == StripTags(s)
  {
    StripTagsIsTagFree(s);
    TagFreeUnchanged(StripTags(s));
  }

  lemma StripsClosingTag()
    ensures StripTags("</p>") == []
  {
    var close := "</p>";
    assert StartsTag(close) && close[2..] == "p>";
    assert "p>"[1..] == ">";
    assert AfterClose(">") == [];
  }

  lemma KeepsText()
    ensures StripTags("Hi</p>") == "Hi"
  {
    StripsClosingTag();
    var tail := "Hi</p>";
    assert !StartsTag(tail) && tail[1..] == "i</p>";
    assert !StartsTag("i</p>") && "i</p>"[1..] == "</p>";
    assert StripTags("i</p>") == ['i'] + StripTags("</p>");
  }

  /** Ordinary markup is removed, closing tags included. */
  lemma StripsMarkup()
    ensures StripTags("<p>Hi</p>") == "Hi"
  {
    KeepsText();
    var s := "<p>Hi</p>";
    assert StartsTag(s) && s[2..] == ">Hi</p>";
    assert ">Hi</p>"[1..] == "Hi</p>";
    assert AfterClose(s[2..]) == "Hi</p>";
  }

  /** A `<` written as "less than" starts a match that, having no closing `>`,
      runs to the end of the string. */
  lemma LessThanSwallowsRest()
    ensures StripTags("a < b") == "a "
  {
    var lt := "< b";
    assert StartsTag(lt) && lt[2..] == "b";
    assert "b"[1..] == [];
    assert StripTags(lt) == [];
    var s := "a < b";
    assert !StartsTag(s) && s[1..] == " < b";
    assert !StartsTag(" < b") && " < b"[1..] == lt;
  }

  /** An empty pair `<>` is not a match and is kept. */
  lemma EmptyPairKept()
    ensures StripTags("x<>y") == "x<>y"
  {
    assert TagFree("x<>y");
    TagFreeUnchanged("x<>y");
  }
}
