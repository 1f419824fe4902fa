/** The structural e-mail check of the contact form, the regular expression
    `^[^\s@]+@[^\s@]+\.[^\s@]+$` applied to the untrimmed input. It is a
    minimal shape test, not the address syntax of RFC 5322. */
module EmailPattern {
  import opened JsString

  /** The character class `[^\s@]`. */
  predicate InClass(c: char) {
    !IsWs(c) && c != '@'
  }

  predicate AllInClass(t: string) {
    forall k :: 0 <= k < |t| ==> InClass(t[k])
  }

  /** `[^\s@]+` matches the whole of `t`. */
  predicate PlusMatch(t: string) {
    |t| > 0 && AllInClass(t)
  }

  /** The anchored pattern matches `s` with its "@" at index `i` and its
      escaped "." at index `j`: `s[..i]`, `s[i+1..j]` and `s[j+1..]` are the
      three `[^\s@]+` runs. */
  predicate MatchesAt(s: string, i: int, j: int) {
    0 <= i < j < |s| && s[i] == '@' && s[j] == '.' &&
    PlusMatch(s[..i]) && PlusMatch(s[i + 1..j]) && PlusMatch(s[j + 1..])
  }

  /** `/^[^\s@]+@[^\s@]+\.[^\s@]+$/.test(s)`. */
  predicate MatchesEmailRegex(s: string) {
    exists i, j | 0 <= i < j < |s| :: MatchesAt(s, i, j)
  }

  /** The domain part holds a "." that is neither its first nor its last
      character. */
  predicate HasInnerDot(d: string) {
    exists i | 0 < i < |d| - 1 :: d[i] == '.'
  }

  /** `s` is `L + "@" + D` with `L == s[..k]` a non-empty run without "@" or
      white space, `D` without "@" or white space, and an inner "." in `D`. */
  predicate SplitsAt(s: string, k: int) {
    0 <= k < |s| && s[k] == '@' && PlusMatch(s[..k]) &&
    AllInClass(s[k + 1..]) && HasInnerDot(s[k + 1..])
  }

  /** The address shape, read as local part, "@" and domain. */
  predicate IsAddressShape(s: string) {
    exists k | 0 <= k < |s| :: SplitsAt(s, k)
  }

  /** The regular expression accepts exactly the strings of address shape. */
  lemma RegexIffAddressShape(s: string)
    ensures MatchesEmailRegex(s) <==> IsAddressShape(s)
  {
    if MatchesEmailRegex(s) {
      var i, j :| 0 <= i < j < |s| && MatchesAt(s, i, j);
      MatchGivesShape(s, i, j);
    }
    if IsAddressShape(s) {
      var k :| 0 <= k < |s| && SplitsAt(s, k);
      var d :| 0 < d < |s[k + 1..]| - 1 && s[k + 1..][d] == '.';
      ShapeGivesMatch(s, k, d);
    }
  }

  lemma MatchGivesShape(s: string, i: int, j: int)
    requires MatchesAt(s, i, j)
    ensures SplitsAt(s, i)
  {
    var dom := s[i + 1..];
    var b, c := s[i + 1..j], s[j + 1..];
    assert AllInClass(dom) by {
      forall k | 0 <= k < |dom| ensures InClass(dom[k]) {
        if k < j - (i + 1) {
          assert dom[k] == b[k];
        } else if k == j - (i + 1) {
          assert dom[k] == s[j] == '.';
        } else {
          assert dom[k] == c[k - (j - i)];
        }
      }
    }
    var d := j - (i + 1);
    assert 0 < d < |dom| - 1 && dom[d] == '.';
  }

  lemma ShapeGivesMatch(s: string, k: int, d: int)
    requires SplitsAt(s, k)
    requires 0 < d < |s[k + 1..]| - 1 && s[k + 1..][d] == '.'
    ensures MatchesAt(s, k, k + 1 + d)
  {
    var dom := s[k + 1..];
    var j := k + 1 + d;
    var b, c := s[k + 1..j], s[j + 1..];
    assert s[j] == '.';
    assert AllInClass(b) by {
      forall t | 0 <= t < |b| ensures InClass(b[t]) { assert b[t] == dom[t]; }
    }
    assert AllInClass(c) by {
      forall t | 0 <= t < |c| ensures InClass(c[t]) { assert c[t] == dom[d + 1 + t]; }
    }
  }

  /** Apart from its one "@", a string of address shape is made of
      class characters only. */
  lemma SplitOthersInClass(s: string, k: int)
    requires SplitsAt(s, k)
    ensures forall t :: 0 <= t < |s| && t != k ==> InClass(s[t])
  {
    forall t | 0 <= t < |s| && t != k ensures InClass(s[t]) {
      if t < k {
        assert s[..k][t] == s[t];
      } else {
        assert s[k + 1..][t - k - 1] == s[t];
      }
    }
  }

  /** The check is applied to the untrimmed value, so any white space at
      all, leading and trailing included, makes it fail. */
  lemma RegexRejectsWs(s: string, k: int)
    requires 0 <= k < |s| && IsWs(s[k])
    ensures !MatchesEmailRegex(s)
  {
    if MatchesEmailRegex(s) {
      var i, j :| 0 <= i < j < |s| && MatchesAt(s, i, j);
      MatchGivesShape(s, i, j);
      SplitOthersInClass(s, i);
    }
  }

  /** A matching string holds exactly one "@". */
  lemma RegexSingleAt(s: string, k1: int, k2: int)
    requires MatchesEmailRegex(s)
    requires 0 <= k1 < |s| && 0 <= k2 < |s| && s[k1] == '@' && s[k2] == '@'
    ensures k1 == k2
  {
    var i, j :| 0 <= i < j < |s| && MatchesAt(s, i, j);
    MatchGivesShape(s, i, j);
    SplitOthersInClass(s, i);
  }

  /** A matching string is left unchanged by `trim`. */
  lemma RegexMatchIsTrimmed(s: string)
    requires MatchesEmailRegex(s)
    ensures Trim(s) == s
  {
    forall k | 0 <= k < |s| ensures !IsWs(s[k]) {
      if IsWs(s[k]) { RegexRejectsWs(s, k); }
    }
    TrimOfNoWs(s);
  }

  /** "a@b.co" is accepted. */
  lemma AcceptsShortAddress()
    ensures MatchesEmailRegex("a@b.co")
  {
    var s := "a@b.co";
    assert s[..1] == "a" && s[2..3] == "b" && s[4..] == "co";
    assert MatchesAt(s, 1, 3);
  }

  /** "not-an-email" is rejected: it holds no "@". */
  lemma RejectsNoAt()
    ensures !MatchesEmailRegex("not-an-email")
  {
    var s := "not-an-email";
    assert forall i | 0 <= i < |s| :: s[i] != '@';
  }

  /** " a@b.co" is rejected because of its leading space. */
  lemma RejectsLeadingSpace()
    ensures !MatchesEmailRegex(" a@b.co")
  {
    assert IsWs(" a@b.co"[0]);
    RegexRejectsWs(" a@b.co", 0);
  }
}
