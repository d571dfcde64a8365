// The release-name and namespace recognisers of internal/domain/deployment/value_objects.go.
// The regular expressions are kept as syntax trees with their standard meaning, so that what
// they accept is proved, not assumed.
module Names {

  datatype CharClass = AlphaNum | AlphaNumHyphen

  predicate InClass(c: char, k: CharClass) {
    || 'a' <= c <= 'z'
    || '0' <= c <= '9'
    || (k.AlphaNumHyphen? && c == '-')
  }

  datatype Regex =
    | One(k: CharClass)
    | Cat(first: Regex, second: Regex)
    | Alt(left: Regex, right: Regex)
    | Repeat(body: Regex, lo: nat, hi: nat)

  /** Whole-string matching: both alternatives of either pattern are anchored at both ends. */
  predicate Matches(r: Regex, s: string)
    decreases r, 0
  {
    match r
    case One(k) => |s| == 1 && InClass(s[0], k)
    case Cat(a, b) => exists i | 0 <= i <= |s| :: Matches(a, s[..i]) && Matches(b, s[i..])
    case Alt(a, b) => Matches(a, s) || Matches(b, s)
    case Repeat(b, lo, hi) => exists n | lo <= n <= hi :: MatchesTimes(b, n, s)
  }

  predicate MatchesTimes(r: Regex, n: nat, s: string)
    decreases r, n + 1
  {
    if n == 0 then s == ""
    else exists i | 0 <= i <= |s| :: Matches(r, s[..i]) && MatchesTimes(r, n - 1, s[i..])
  }

  const RELEASE_MIDDLE: nat := 52
  const NAMESPACE_MIDDLE: nat := 61

  /** `^[a-z0-9][a-z0-9\-]{0,m}[a-z0-9]$|^[a-z0-9]$` */
  function NamePattern(m: nat): Regex {
    Alt(Cat(One(AlphaNum), Cat(Repeat(One(AlphaNumHyphen), 0, m), One(AlphaNum))), One(AlphaNum))
  }

  datatype Verdict = Accepted | EmptyName | Malformed

  function ValidateReleaseName(s: string): Verdict {
    if s == "" then EmptyName
    else if Matches(NamePattern(RELEASE_MIDDLE), s) then Accepted
    else Malformed
  }

  function ValidateNamespace(s: string): Verdict {
    if s == "" then EmptyName
    else if Matches(NamePattern(NAMESPACE_MIDDLE), s) then Accepted
    else Malformed
  }

  /** The label syntax of section 2.1 of RFC 1123, lower case, with an explicit length limit. */
  predicate IsLabel(s: string, limit: nat) {
    && 1 <= |s| <= limit
    && (forall i | 0 <= i < |s| :: 'a' <= s[i] <= 'z' || '0' <= s[i] <= '9' || s[i] == '-')
    && s[0] != '-'
    && s[|s| - 1] != '-'
  }

  lemma {:induction false} ClassRepeated(k: CharClass, n: nat, s: string)
    ensures MatchesTimes(One(k), n, s) <==> |s| == n && forall i | 0 <= i < |s| :: InClass(s[i], k)
    decreases n
  {
    if n > 0 {
      forall i | 0 <= i <= |s| {
        ClassRepeated(k, n - 1, s[i..]);
      }
      if |s| == n && forall i | 0 <= i < |s| :: InClass(s[i], k) {
        assert Matches(One(k), s[..1]) && MatchesTimes(One(k), n - 1, s[1..]);
      }
      if MatchesTimes(One(k), n, s) {
        var i :| 0 <= i <= |s| && Matches(One(k), s[..i]) && MatchesTimes(One(k), n - 1, s[i..]);
        assert i == 1 && s == s[..1] + s[1..];
        forall j | 0 <= j < |s| ensures InClass(s[j], k) {
          assert j > 0 ==> s[j] == s[1..][j - 1];
        }
      }
    }
  }

  lemma PatternAcceptsLabels(m: nat, s: string)
    requires IsLabel(s, m + 2)
    ensures Matches(NamePattern(m), s)
  {
    if |s| > 1 {
      var tail, n := s[1..], |s| - 2;
      var mid := tail[..n];
      ClassRepeated(AlphaNumHyphen, n, mid);
      assert Matches(Repeat(One(AlphaNumHyphen), 0, m), mid);
      assert tail[n..] == [s[|s| - 1]];
      assert Matches(Cat(Repeat(One(AlphaNumHyphen), 0, m), One(AlphaNum)), tail);
      assert Matches(One(AlphaNum), s[..1]);
    }
  }

  /** The part of the pattern after the first character. */
  lemma TailAccepts(m: nat, tail: string)
    requires Matches(Cat(Repeat(One(AlphaNumHyphen), 0, m), One(AlphaNum)), tail)
    ensures 1 <= |tail| <= m + 1 && InClass(tail[|tail| - 1], AlphaNum)
    ensures forall i | 0 <= i < |tail| :: InClass(tail[i], AlphaNumHyphen)
  {
    var middle := Repeat(One(AlphaNumHyphen), 0, m);
    var j :| 0 <= j <= |tail| && Matches(middle, tail[..j]) && Matches(One(AlphaNum), tail[j..]);
    assert middle.Repeat? && Matches(middle, tail[..j]);
    var n :| middle.lo <= n <= middle.hi && MatchesTimes(One(AlphaNumHyphen), n, tail[..j]);
    ClassRepeated(AlphaNumHyphen, n, tail[..j]);
    assert tail == tail[..j] + tail[j..];
    assert forall i | 0 <= i < j :: tail[i] == tail[..j][i];
  }

  lemma PatternAcceptsOnlyLabels(m: nat, s: string)
    requires Matches(NamePattern(m), s)
    ensures IsLabel(s, m + 2)
  {
    if !Matches(One(AlphaNum), s) {
      var rest := Cat(Repeat(One(AlphaNumHyphen), 0, m), One(AlphaNum));
      var i :| 0 <= i <= |s| && Matches(One(AlphaNum), s[..i]) && Matches(rest, s[i..]);
      TailAccepts(m, s[1..]);
      assert forall j | 1 <= j < |s| :: s[j] == s[1..][j - 1];
    }
  }

  /** Both validators, characterised for every string. */
  lemma NamesAreLabels(s: string)
    ensures ValidateReleaseName(s) == Accepted <==> IsLabel(s, 54)
    ensures ValidateNamespace(s) == Accepted <==> IsLabel(s, 63)
    ensures ValidateReleaseName(s) == EmptyName <==> s == ""
    ensures ValidateNamespace(s) == EmptyName <==> s == ""
  {
    forall m | m == RELEASE_MIDDLE || m == NAMESPACE_MIDDLE
      ensures Matches(NamePattern(m), s) <==> IsLabel(s, m + 2)
    {
      if IsLabel(s, m + 2) { PatternAcceptsLabels(m, s); }
      if Matches(NamePattern(m), s) { PatternAcceptsOnlyLabels(m, s); }
    }
  }

  /** Every accepted release name is an accepted namespace, and a namespace is an accepted
      release name exactly when it has at most 54 characters. */
  lemma ReleaseNamesAreNamespaces(s: string)
    ensures ValidateReleaseName(s) == Accepted <==> ValidateNamespace(s) == Accepted && |s| <= 54
  {
    NamesAreLabels(s);
  }

  /** The error text promises at most 53 characters; the pattern accepts one more. */
  lemma MessageUnderstatesLimit(s: string)
    requires s == seq(54, _ => 'a')
    ensures |s| > 53 && ValidateReleaseName(s) == Accepted
  {
    NamesAreLabels(s);
  }
}
