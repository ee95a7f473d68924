/** Input screening for the contact form (js/main.js, `isValidInput` and `sanitizeInput`). */
module Screening {
  import opened Text

  /** `input.length < 1000` is the only length rule. */
  const MaxInputLength: nat := 1000

  /** The character class `[<>{}]` that `isValidInput` treats as suspicious. */
  predicate IsSuspicious(c: char) {
    c == '<' || c == '>' || c == '{' || c == '}'
  }

  /** `/[<>{}]/g.test(input)` on a freshly built pattern: does any suspicious character occur? */
  function HasSuspicious(s: string): (r: bool)
    ensures r <==> exists k :: 0 <= k < |s| && IsSuspicious(s[k])
  {
    if s == [] then false
    else IsSuspicious(s[0]) || HasSuspicious(s[1..])
  }

  /** `isValidInput(input)`: no suspicious character and fewer than 1000 characters. */
  function IsValidInput(s: string): (ok: bool)
    ensures ok <==> |s| < MaxInputLength && forall k :: 0 <= k < |s| ==> !IsSuspicious(s[k])
  {
    !HasSuspicious(s) && |s| < MaxInputLength
  }

  /** The first `>` strictly after position 0 of `s`, as an index into `s`, or `|s|` when there is none. */
  function ClosingAngle(s: string): (j: nat)
    requires s != []
    ensures 1 <= j <= |s|
    ensures j < |s| ==> s[j] == '>'
    ensures forall k :: 1 <= k < j ==> s[k] != '>'
  {
    1 + FindChar(s[1..], '>')
  }

  /** `input.replace(/<[^>]*>/g, '')`: scanning left to right, every `<` that has a later `>`
      starts a match running to the first such `>`, and the match is deleted; every other
      character is kept. */
  function Sanitize(s: string): (r: string)
    ensures |r| <= |s|
    decreases |s|
  {
    if s == [] then []
    else if s[0] == '<' && ClosingAngle(s) < |s| then Sanitize(s[ClosingAngle(s) + 1..])
    else [s[0]] + Sanitize(s[1..])
  }

  /** No `<` is followed, anywhere later, by a `>`: the regular expression `<[^>]*>` has no match. */
  predicate TagFree(s: string) {
    forall i, j :: 0 <= i < j < |s| && s[i] == '<' ==> s[j] != '>'
  }

  /** Sanitizing only deletes characters: every character of the result occurs in the input. */
  lemma {:induction false} SanitizeKeepsOnlyInputChars(s: string, c: char)
    requires c in Sanitize(s)
    ensures c in s
    decreases |s|
  {
    if s == [] {
    } else if s[0] == '<' && ClosingAngle(s) < |s| {
      var rest := s[ClosingAngle(s) + 1..];
      SanitizeKeepsOnlyInputChars(rest, c);
      assert c in rest;
    } else if c != s[0] {
      SanitizeKeepsOnlyInputChars(s[1..], c);
    }
  }

  /** The output of `sanitizeInput` never holds a `<` followed later by a `>`. */
  lemma {:induction false} SanitizeIsTagFree(s: string)
    ensures TagFree(Sanitize(s))
    decreases |s|
  {
    if s == [] {
    } else if s[0] == '<' && ClosingAngle(s) < |s| {
      SanitizeIsTagFree(s[ClosingAngle(s) + 1..]);
    } else {
      var tail := Sanitize(s[1..]);
      SanitizeIsTagFree(s[1..]);
      if s[0] == '<' {
        // the leading `<` has no later `>` in `s`, so none survives in `tail`
        assert '>' !in s[1..];
        if '>' in tail {
          SanitizeKeepsOnlyInputChars(s[1..], '>');
          assert false;
        }
      }
      var r := [s[0]] + tail;
      assert Sanitize(s) == r;
      forall i, j | 0 <= i < j < |r| && r[i] == '<' ensures r[j] != '>' {
        assert r[j] == tail[j - 1];
        if i > 0 {
          assert r[i] == tail[i - 1];
        }
      }
    }
  }

  /** A string with no `<…>` run is left as it is; in particular stray `>` and a `<` with no
      later `>` survive. */
  lemma {:induction false} SanitizeIdentityOnTagFree(s: string)
    requires TagFree(s)
    ensures Sanitize(s) == s
    decreases |s|
  {
    if s != [] {
      if s[0] == '<' {
        assert forall j :: 1 <= j < |s| ==> s[j] != '>';
        assert ClosingAngle(s) == |s|;
      }
      assert TagFree(s[1..]) by {
        forall i, j | 0 <= i < j < |s[1..]| && s[1..][i] == '<' ensures s[1..][j] != '>' {
          assert s[i + 1] == '<';
        }
      }
      SanitizeIdentityOnTagFree(s[1..]);
      assert Sanitize(s) == [s[0]] + s[1..];
    }
  }

  /** `r` is obtained from `s` by deleting zero or more characters, keeping the rest in order. */
  predicate Subsequence(r: string, s: string)
    decreases |s|
  {
    r == [] || (s != [] && ((r[0] == s[0] && Subsequence(r[1..], s[1..])) || Subsequence(r, s[1..])))
  }

  /** Deleting a prefix first still leaves a subsequence of the whole. */
  lemma {:induction false} SubsequenceOfSuffix(r: string, s: string, k: nat)
    requires k <= |s| && Subsequence(r, s[k..])
    ensures Subsequence(r, s)
    decreases k
  {
    if k > 0 {
      assert s[1..][k - 1..] == s[k..];
      SubsequenceOfSuffix(r, s[1..], k - 1);
    } else {
      assert s[k..] == s;
    }
  }

  /** Sanitizing only deletes: the result is a subsequence of the input. */
  lemma {:induction false} SanitizeOnlyDeletes(s: string)
    ensures Subsequence(Sanitize(s), s)
    decreases |s|
  {
    if s == [] {
    } else if s[0] == '<' && ClosingAngle(s) < |s| {
      SanitizeOnlyDeletes(s[ClosingAngle(s) + 1..]);
      SubsequenceOfSuffix(Sanitize(s), s, ClosingAngle(s) + 1);
    } else {
      SanitizeOnlyDeletes(s[1..]);
      var r := Sanitize(s);
      assert r[0] == s[0] && r[1..] == Sanitize(s[1..]);
    }
  }

  /** A prefix without `<` is kept as it is, whatever follows it. */
  lemma {:induction false} SanitizeKeepsPrefixWithoutOpen(p: string, q: string)
    requires '<' !in p
    ensures Sanitize(p + q) == p + Sanitize(q)
    decreases |p|
  {
    if p == [] {
      assert p + q == q;
    } else {
      assert (p + q)[0] == p[0] && (p + q)[1..] == p[1..] + q;
      SanitizeKeepsPrefixWithoutOpen(p[1..], q);
      assert p == [p[0]] + p[1..];
    }
  }

  /** A suffix without `>` is kept as it is, whatever precedes it: no run can end inside it. */
  lemma {:induction false} SanitizeKeepsSuffixWithoutClose(p: string, q: string)
    requires '>' !in q
    ensures Sanitize(p + q) == Sanitize(p) + q
    decreases |p|
  {
    if p == [] {
      assert p + q == q;
      assert TagFree(q);
      SanitizeIdentityOnTagFree(q);
    } else {
      var s := p + q;
      assert s[0] == p[0] && s[1..] == p[1..] + q;
      SanitizeKeepsSuffixWithoutClose(p[1..], q);
      if p[0] == '<' {
        var jp := ClosingAngle(p);
        var js := ClosingAngle(s);
        if jp < |p| {
          assert s[jp] == '>';
          assert js == jp;
          assert s[jp + 1..] == p[jp + 1..] + q;
          SanitizeKeepsSuffixWithoutClose(p[jp + 1..], q);
        } else {
          assert js == |s|;
        }
      }
    }
  }

  /** Unmatched angles survive next to a deleted run: `<a>x<y` becomes `x<y` and `x><a>`
      becomes `x>`. */
  lemma SanitizeKeepsUnmatchedBesideRun()
    ensures Sanitize("<a>x<y") == "x<y"
    ensures Sanitize("x><a>") == "x>"
  {
    SanitizeKeepsSuffixWithoutClose("<a>", "x<y");
    assert "<a>" + "x<y" == "<a>x<y";
    assert ClosingAngle("<a>") == 2;
    SanitizeKeepsPrefixWithoutOpen("x>", "<a>");
    assert "x>" + "<a>" == "x><a>";
    assert ClosingAngle("<a>") == 2;
  }

  /** `sanitizeInput` is the identity on every string without a `<`. */
  lemma {:induction false} SanitizeIdentityWithoutOpenAngle(s: string)
    requires '<' !in s
    ensures Sanitize(s) == s
  {
    SanitizeIdentityOnTagFree(s);
  }

  /** A tag run is deleted and the text around it kept. */
  lemma SanitizeDeletesTagRun()
    ensures Sanitize("a<b>c") == "ac"
    ensures Sanitize("<script>") == ""
  {
    assert ClosingAngle("a<b>c"[1..]) == 2;
    assert Sanitize("a<b>c"[1..]) == Sanitize("c");
    assert ClosingAngle("<script>") == 7;
  }

  /** A run ends at the FIRST `>` and may contain another `<`; the later `>` survives. */
  lemma SanitizeRunEndsAtFirstClose()
    ensures Sanitize("<a<b>c>") == "c>"
  {
    assert ClosingAngle("<a<b>c>") == 4;
    SanitizeIdentityWithoutOpenAngle("c>");
  }

  /** A stray `>` and a `<` with no later `>` survive. */
  lemma SanitizeKeepsUnmatchedAngles()
    ensures Sanitize("x>y<z") == "x>y<z"
  {
    assert TagFree("x>y<z");
    SanitizeIdentityOnTagFree("x>y<z");
  }

  /** `sanitizeInput` is idempotent. */
  lemma {:induction false} SanitizeIdempotent(s: string)
    ensures Sanitize(Sanitize(s)) == Sanitize(s)
  {
    SanitizeIsTagFree(s);
    SanitizeIdentityOnTagFree(Sanitize(s));
  }

  /** A field that passed `isValidInput` holds no `<`, so `sanitizeInput` returns it unchanged. */
  lemma {:induction false} SanitizeIdentityOnValidInput(s: string)
    requires IsValidInput(s)
    ensures Sanitize(s) == s
  {
    assert forall i :: 0 <= i < |s| ==> s[i] != '<';
    SanitizeIdentityOnTagFree(s);
  }

  /** A string of 1000 characters is rejected whatever it holds; 999 harmless characters pass. */
  lemma ValidInputLengthBoundary(s: string, t: string)
    requires |s| == MaxInputLength
    requires |t| == MaxInputLength - 1 && forall k :: 0 <= k < |t| ==> t[k] == 'a'
    ensures !IsValidInput(s) && IsValidInput(t)
  {
  }
}
