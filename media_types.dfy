/**
 * Media types as (type, subtype) pairs, rendered as `type/subtype`.
 * The full header parser (parameters, whitespace, case) is not part of this model;
 * only the split at the first `/` that turns a literal like `application/json` into a pair.
 */
module MediaTypes {

  datatype MediaType = MediaType(mainType: string, subtype: string)

  /** The `type/subtype` string the acceptance rules compare against. */
  function Render(m: MediaType): (s: string) {
    m.mainType + "/" + m.subtype
  }

  /** The first index at or after `k` holding a `/`, or `|s|` when there is none. */
  function SlashFrom(s: string, k: nat): (i: nat)
    requires k <= |s|
    ensures k <= i <= |s|
    ensures i < |s| ==> s[i] == '/'
    ensures forall p :: k <= p < i ==> s[p] != '/'
    decreases |s| - k
  {
    if k == |s| || s[k] == '/' then k else SlashFrom(s, k + 1)
  }

  /** Splits a literal media-type string at its first `/`; without one, the subtype is empty. */
  function ParseTypeSubtype(s: string): (m: MediaType)
    ensures '/' !in m.mainType
    ensures '/' in s ==> Render(m) == s
    ensures '/' !in s ==> m == MediaType(s, "")
  {
    var i := SlashFrom(s, 0);
    assert '/' !in s[..i] by {
      forall p | 0 <= p < |s[..i]| ensures s[..i][p] != '/' { }
    }
    if i < |s| then
      assert s == s[..i] + "/" + s[i + 1..];
      MediaType(s[..i], s[i + 1..])
    else
      assert s[..i] == s;
      MediaType(s, "")
  }

  /** Rendering loses nothing when the type carries no `/`. */
  lemma {:induction false} ParseRenderRoundTrip(m: MediaType)
    requires '/' !in m.mainType
    ensures ParseTypeSubtype(Render(m)) == m
  {
    var s := Render(m);
    var n := |m.mainType|;
    forall p | 0 <= p < n ensures s[p] != '/' {
      assert s[p] == s[..n][p] == m.mainType[p];
    }
    SlashAt(s, 0, n);
    assert s[..n] == m.mainType;
  }

  lemma {:induction false} SlashAt(s: string, k: nat, n: nat)
    requires k <= n < |s| && s[n] == '/'
    requires forall p :: k <= p < n ==> s[p] != '/'
    ensures SlashFrom(s, k) == n
    decreases n - k
  {
    if k < n {
      SlashAt(s, k + 1, n);
    }
  }

  /** Two media types whose types carry no `/` render alike only when they are equal. */
  lemma RenderInjective(a: MediaType, b: MediaType)
    requires '/' !in a.mainType && '/' !in b.mainType
    requires Render(a) == Render(b)
    ensures a == b
  {
    ParseRenderRoundTrip(a);
    ParseRenderRoundTrip(b);
  }
}
