/** The two ECMAScript string facilities the contact form relies on:
    the white-space class shared by `String.prototype.trim` and the regular
    expression escape `\s`, and `trim` itself. */
module JsString {

  /** ECMAScript WhiteSpace (TAB, VT, FF, ZWNBSP and every Zs space) together
      with LineTerminator (LF, CR, LS, PS). `trim` strips exactly these code
      points and `\s` matches exactly these code points. */
  predicate IsWs(c: char) {
    var n := c as int;
    n == 0x09 || n == 0x0A || n == 0x0B || n == 0x0C || n == 0x0D ||
    n == 0x20 || n == 0xA0 || n == 0x1680 ||
    (0x2000 <= n <= 0x200A) ||
    n == 0x2028 || n == 0x2029 || n == 0x202F || n == 0x205F ||
    n == 0x3000 || n == 0xFEFF
  }

  /** Every character of `s` is white space (vacuously true of ""). */
  predicate AllWs(s: string) {
    forall k :: 0 <= k < |s| ==> IsWs(s[k])
  }

  /** Drops the white space at the front of `s`. */
  function TrimStart(s: string): (r: string)
    ensures |r| <= |s|
  {
    if |s| > 0 && IsWs(s[0]) then TrimStart(s[1..]) else s
  }

  /** Drops the white space at the back of `s`. */
  function TrimEnd(s: string): (r: string)
    ensures |r| <= |s|
  {
    if |s| > 0 && IsWs(s[|s| - 1]) then TrimEnd(s[..|s| - 1]) else s
  }

  /** `TrimStart` keeps a suffix of `s`, everything it drops is white space,
      and what it keeps does not start with white space. */
  lemma {:induction false} TrimStartSpec(s: string)
    ensures var r := TrimStart(s);
      r == s[|s| - |r|..] && AllWs(s[..|s| - |r|]) && (r != [] ==> !IsWs(r[0]))
  {
    if |s| > 0 && IsWs(s[0]) {
      var t := s[1..];
      TrimStartSpec(t);
      var r := TrimStart(t);
      var m := |t| - |r|;
      assert t[m..] == s[m + 1..];
      var head := s[..m + 1];
      assert AllWs(head) by {
        forall k | 0 <= k < |head| ensures IsWs(head[k]) {
          if k > 0 { assert head[k] == t[..m][k - 1]; }
        }
      }
    } else {
      assert s[..0] == [];
    }
  }

  /** `TrimEnd` keeps a prefix of `s`, everything it drops is white space,
      and what it keeps does not end with white space. */
  lemma {:induction false} TrimEndSpec(s: string)
    ensures var r := TrimEnd(s);
      r == s[..|r|] && AllWs(s[|r|..]) && (r != [] ==> !IsWs(r[|r| - 1]))
  {
    if |s| > 0 && IsWs(s[|s| - 1]) {
      var t := s[..|s| - 1];
      TrimEndSpec(t);
      var r := TrimEnd(t);
      assert t[..|r|] == s[..|r|];
      var tail := s[|r|..];
      assert AllWs(tail) by {
        forall k | 0 <= k < |tail| ensures IsWs(tail[k]) {
          if k < |tail| - 1 { assert tail[k] == t[|r|..][k]; }
        }
      }
    } else {
      assert s[|s|..] == [];
    }
  }

  /** `r` is `s` with the white space `s[..a]` cut from the front and the
      white space `s[a + |r|..]` cut from the back. */
  predicate TrimmedAt(s: string, r: string, a: int) {
    0 <= a && a + |r| <= |s| && r == s[a..a + |r|] &&
    AllWs(s[..a]) && AllWs(s[a + |r|..])
  }

  /** `s.trim()`. */
  function Trim(s: string): string {
    TrimEnd(TrimStart(s))
  }

  /** `trim` keeps a slice of `s` and cuts only white space from either
      end; what it keeps neither starts nor ends with white space. */
  lemma TrimSpec(s: string)
    ensures exists a :: TrimmedAt(s, Trim(s), a)
    ensures Trim(s) != [] ==> !IsWs(Trim(s)[0]) && !IsWs(Trim(s)[|Trim(s)| - 1])
  {
    var t := TrimStart(s);
    var r := TrimEnd(t);
    TrimStartSpec(s);
    TrimEndSpec(t);
    var a := |s| - |t|;
    assert r == s[a..a + |r|] by {
      forall k | 0 <= k < |r| ensures r[k] == s[a + k] { assert r[k] == t[k]; }
    }
    var tail := s[a + |r|..];
    assert AllWs(tail) by {
      forall k | 0 <= k < |tail| ensures IsWs(tail[k]) { assert tail[k] == t[|r|..][k]; }
    }
    if r != [] {
      assert r[0] == t[0];
    }
    assert TrimmedAt(s, Trim(s), a);
  }

  /** `!s.trim()` in JavaScript: the trimmed string is the falsy "". */
  predicate IsBlank(s: string) {
    Trim(s) == []
  }

  /** A string trims to "" exactly when it consists of white space only. */
  lemma BlankIffAllWs(s: string)
    ensures IsBlank(s) <==> AllWs(s)
  {
    TrimSpec(s);
    var a :| TrimmedAt(s, Trim(s), a);
    if IsBlank(s) {
      forall k | 0 <= k < |s| ensures IsWs(s[k]) {
        if k < a { assert s[..a][k] == s[k]; } else { assert s[a..][k - a] == s[k]; }
      }
    }
  }

  /** `trim` leaves a string without white space untouched. */
  lemma TrimOfNoWs(s: string)
    requires forall k :: 0 <= k < |s| ==> !IsWs(s[k])
    ensures Trim(s) == s
  {
    if |s| > 0 {
      assert !IsWs(s[0]) && !IsWs(s[|s| - 1]);
    }
  }
}
