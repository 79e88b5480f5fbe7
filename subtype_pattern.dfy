/**
 * The single allowed content-type pattern, `application\/[a-z]+\+json`, hand-coded.
 *
 * The pattern carries no `^` or `$` anchor, so a PCRE match is a SUBSTRING search:
 * a rendered string is matched when `application/`, one or more of `a`..`z` and
 * `+json` occur contiguously anywhere in it. `OccursAt` and `Matches` state that
 * shape declaratively; `MatchesPattern` is the scanning matcher, proved equal to it.
 */
module SubtypePattern {

  const Prefix: string := "application/"
  const Suffix: string := "+json"

  predicate IsLower(c: char) {
    'a' <= c <= 'z'
  }

  predicate AllLower(s: string) {
    forall k :: 0 <= k < |s| ==> IsLower(s[k])
  }

  /** `s[i..j + |Suffix|]` is `application/`, then the letters `s[i + |Prefix|..j]`, then `+json`. */
  ghost predicate OccursAt(s: string, i: int, j: int) {
    && 0 <= i && i + |Prefix| < j && j + |Suffix| <= |s|
    && s[i..i + |Prefix|] == Prefix
    && AllLower(s[i + |Prefix|..j])
    && s[j..j + |Suffix|] == Suffix
  }

  /** The meaning of the unanchored pattern. */
  ghost predicate Matches(s: string) {
    exists i, j :: OccursAt(s, i, j)
  }

  /** The meaning the pattern would have with `^` and `$` anchors. */
  ghost predicate MatchesWhole(s: string) {
    exists j :: OccursAt(s, 0, j) && j + |Suffix| == |s|
  }

  /** The end of the run of lower-case letters that starts at `k`. */
  function LowerRunEnd(s: string, k: nat): (e: nat)
    requires k <= |s|
    ensures k <= e <= |s|
    ensures forall p :: k <= p < e ==> IsLower(s[p])
    ensures e < |s| ==> !IsLower(s[e])
    decreases |s| - k
  {
    if k < |s| && IsLower(s[k]) then LowerRunEnd(s, k + 1) else k
  }

  /** Whether the pattern matches starting exactly at index `i`. */
  function MatchesAt(s: string, i: nat): (b: bool)
    requires i <= |s|
    ensures b <==> exists j :: OccursAt(s, i, j)
  {
    var k := i + |Prefix|;
    if k <= |s| && s[i..k] == Prefix then
      var e := LowerRunEnd(s, k);
      var b := k < e && e + |Suffix| <= |s| && s[e..e + |Suffix|] == Suffix;
      assert b ==> OccursAt(s, i, e) by {
        if b {
          var run := s[k..e];
          assert AllLower(run) by {
            forall p | 0 <= p < |run| ensures IsLower(run[p]) {
              assert run[p] == s[k + p];
            }
          }
        }
      }
      assert (exists j :: OccursAt(s, i, j)) ==> b by {
        if j :| OccursAt(s, i, j) {
          RunStopsAtPlus(s, k, j);
        }
      }
      b
    else
      NoPrefixNoMatch(s, i);
      false
  }

  /** Without the prefix at `i`, nothing matches at `i`. */
  lemma NoPrefixNoMatch(s: string, i: nat)
    requires i <= |s|
    requires !(i + |Prefix| <= |s| && s[i..i + |Prefix|] == Prefix)
    ensures forall j :: !OccursAt(s, i, j)
  {
  }

  /** A letter run followed by `+` ends exactly before the `+`. */
  lemma RunStopsAtPlus(s: string, k: nat, j: nat)
    requires k < j < |s| && s[j] == '+'
    requires AllLower(s[k..j])
    ensures LowerRunEnd(s, k) == j
    decreases j - k
  {
  }

  /** Whether the pattern matches at some index at or after `i`. */
  function MatchesFrom(s: string, i: nat): (b: bool)
    requires i <= |s|
    ensures b <==> exists p, j :: i <= p && OccursAt(s, p, j)
    decreases |s| - i
  {
    if i == |s| then
      assert forall p, j :: i <= p && OccursAt(s, p, j) ==> p == i;
      MatchesAt(s, i)
    else
      MatchesAt(s, i) || MatchesFrom(s, i + 1)
  }

  /** The pattern test the document runs on a rendered content type (`preg_match`). */
  function MatchesPattern(s: string): (b: bool)
    ensures b <==> Matches(s)
  {
    MatchesFrom(s, 0)
  }

  /** What any occurrence pins down: the prefix letters, the letter run and the `+` after it. */
  lemma OccurrenceFacts(s: string, i: int, j: int)
    requires OccursAt(s, i, j)
    ensures s[i] == 'a' && s[i + 1] == 'p' && s[i + 2] == 'p' && s[i + 11] == '/'
    ensures forall p :: i + |Prefix| <= p < j ==> IsLower(s[p])
    ensures s[j] == '+'
  {
  }

  /** Every `application/<letters>+json` string matches, anchored or not. */
  lemma {:induction false} FamilyMatches(letters: string)
    requires |letters| > 0 && AllLower(letters)
    ensures MatchesWhole(Prefix + letters + Suffix)
    ensures Matches(Prefix + letters + Suffix)
  {
    var s := Prefix + letters + Suffix;
    var j := |Prefix| + |letters|;
    assert s[0..|Prefix|] == Prefix;
    assert s[|Prefix|..j] == letters;
    assert s[j..j + |Suffix|] == Suffix;
    assert OccursAt(s, 0, j);
  }

  /** An anchored match is in particular a substring match. */
  lemma WholeImpliesMatches(s: string)
    requires MatchesWhole(s)
    ensures Matches(s)
  {
  }

  /** A match needs at least `application/`, one letter and `+json`: 18 characters. */
  lemma ShortNeverMatches(s: string)
    requires |s| < |Prefix| + 1 + |Suffix|
    ensures !Matches(s)
  {
  }

  /** Without a `+` there is no `+json`, so nothing matches. */
  lemma NoPlusNeverMatches(s: string)
    requires '+' !in s
    ensures !Matches(s)
  {
    if i, j :| OccursAt(s, i, j) {
      OccurrenceFacts(s, i, j);
    }
  }

  /** The match is unanchored: text before or after the shape does not prevent it. */
  lemma {:induction false} UnanchoredExamples()
    ensures Matches("xapplication/ld+json") && !MatchesWhole("xapplication/ld+json")
    ensures Matches("application/ld+jsonp") && !MatchesWhole("application/ld+jsonp")
  {
    var a := "xapplication/ld+json";
    assert a[1..13] == Prefix && a[13..15] == "ld" && a[15..20] == Suffix;
    assert AllLower(a[13..15]);
    assert OccursAt(a, 1, 15);
    if j :| OccursAt(a, 0, j) && j + |Suffix| == |a| {
      OccurrenceFacts(a, 0, j);
    }
    var b := "application/ld+jsonp";
    assert b[0..12] == Prefix && b[12..14] == "ld" && b[14..19] == Suffix;
    assert AllLower(b[12..14]);
    assert OccursAt(b, 0, 14);
    if j :| OccursAt(b, 0, j) && j + |Suffix| == |b| {
      OccurrenceFacts(b, 0, j);
    }
  }

  /** Strings on the accepting side of the pattern. */
  lemma {:induction false} MatchingExamples()
    ensures Matches("application/ld+json")
    ensures Matches("application/hal+json")
  {
    FamilyMatches("ld");
    assert Prefix + "ld" + Suffix == "application/ld+json";
    FamilyMatches("hal");
    assert Prefix + "hal" + Suffix == "application/hal+json";
  }

  /** Strings on the rejecting side with no `+` or too short to hold the shape. */
  lemma {:induction false} NonMatchingExamples()
    ensures !Matches("application/+json")
    ensures !Matches("application/json") && !Matches("text/javascript") && !Matches("text/json")
  {
  }

  /** Strings on the rejecting side whose letter run is broken: an upper-case letter, a dot. */
  lemma {:induction false} BrokenRunExamples()
    ensures !Matches("application/LD+json")
    ensures !Matches("application/vnd.api+json")
  {
    var u := "application/LD+json";
    assert forall p :: 0 <= p < |u| && u[p] == '+' ==> p == 14;
    assert !IsLower(u[13]);
    if i, j :| OccursAt(u, i, j) {
      OccurrenceFacts(u, i, j);
    }
    var v := "application/vnd.api+json";
    assert forall p :: 0 <= p < |v| && v[p] == '+' ==> p == 19;
    assert !IsLower(v[15]) && v[4] != 'a' && v[5] != 'a' && v[7] != 'p';
    if i, j :| OccursAt(v, i, j) {
      OccurrenceFacts(v, i, j);
    }
  }
}
