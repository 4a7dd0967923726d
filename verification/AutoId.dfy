// Prompt ids a client leaves out are derived from the user and the normal form
// of the text.  The digest function is a parameter; collisions are excluded
// only for the seeds a statement talks about.
module AutoId {
  import opened Wrappers
  import opened TextNormal

  // A SHA-256 digest written as 64 hexadecimal digits.
  type Digest = d: string | |d| == 64 witness seq(64, i => '0')

  function HashText(sha: string -> Digest, text: string): Digest {
    sha(Normalize(text))
  }

  // The 32 leading digits, grouped 8-4-4-4-12.
  function UuidLike(h: Digest): string {
    "auto-" + h[..8] + "-" + h[8..12] + "-" + h[12..16] + "-" + h[16..20] + "-" + h[20..32]
  }

  function Seed(user: string, text: string): string {
    user + ":" + Normalize(text)
  }

  function DerivedId(sha: string -> Digest, user: string, text: string): string {
    UuidLike(sha(Seed(user, text)))
  }

  function ResolvedPromptId(sha: string -> Digest, user: string, promptId: Option<string>, text: string): string {
    if promptId.Some? && promptId.value != "" then promptId.value else DerivedId(sha, user, text)
  }

  predicate NoClash(sha: string -> Digest, x: string, y: string) {
    sha(x)[..32] == sha(y)[..32] ==> x == y
  }

  lemma UuidLikeKeepsDigits(g: Digest, h: Digest)
    ensures UuidLike(g) == UuidLike(h) <==> g[..32] == h[..32]
  {
    var a, b := UuidLike(g), UuidLike(h);
    assert a[5..13] == g[..8] && a[14..18] == g[8..12] && a[19..23] == g[12..16] && a[24..28] == g[16..20] && a[29..41] == g[20..32];
    assert b[5..13] == h[..8] && b[14..18] == h[8..12] && b[19..23] == h[12..16] && b[24..28] == h[16..20] && b[29..41] == h[20..32];
    assert g[..32] == g[..8] + g[8..12] + g[12..16] + g[16..20] + g[20..32];
    assert h[..32] == h[..8] + h[8..12] + h[12..16] + h[16..20] + h[20..32];
    if g[..32] == h[..32] {
      assert g[..8] == g[..32][..8] && h[..8] == h[..32][..8];
      assert g[8..12] == g[..32][8..12] && h[8..12] == h[..32][8..12];
      assert g[12..16] == g[..32][12..16] && h[12..16] == h[..32][12..16];
      assert g[16..20] == g[..32][16..20] && h[16..20] == h[..32][16..20];
      assert g[20..32] == g[..32][20..] && h[20..32] == h[..32][20..];
    }
  }

  // An id the client gives is used as it is; left out, or empty, it depends on the user and
  // the words of the text alone.
  lemma IdResolved(sha: string -> Digest, user: string, promptId: Option<string>, s: string, t: string)
    ensures promptId.Some? && promptId.value != "" ==> ResolvedPromptId(sha, user, promptId, s) == promptId.value
    ensures promptId == None || promptId == Some("") ==>
      && ResolvedPromptId(sha, user, promptId, s) == UuidLike(sha(user + ":" + Normalize(s)))
      && (Split(Lower(s)) == Split(Lower(t)) ==> ResolvedPromptId(sha, user, promptId, s) == ResolvedPromptId(sha, user, promptId, t))
  {
  }

  // "auto-" and the digits in five groups of 8, 4, 4, 4 and 12.
  lemma UuidFormat(h: Digest)
    ensures var id := UuidLike(h);
      && |id| == 41 && id[..5] == "auto-"
      && id[13] == '-' && id[18] == '-' && id[23] == '-' && id[28] == '-'
      && id[5..13] + id[14..18] + id[19..23] + id[24..28] + id[29..] == h[..32]
  {
    var id := UuidLike(h);
    assert id[5..13] == h[..8] && id[14..18] == h[8..12] && id[19..23] == h[12..16] && id[24..28] == h[16..20] && id[29..] == h[20..32];
    assert h[..32] == h[..8] + h[8..12] + h[12..16] + h[16..20] + h[20..32];
  }

  // ---- Which users can share a derived id ----

  // One user id continues the other with a colon, and what follows reads as the start of a
  // normalized text.
  ghost predicate Continues(u: string, v: string) {
    exists q :: v == u + ":" + q && Normalize(q + ":") == q + ":"
  }

  ghost predicate CanShareSeeds(u: string, v: string) {
    Continues(u, v) || Continues(v, u)
  }

  lemma SharedSeedContinues(u: string, s: string, v: string, t: string)
    requires Seed(u, s) == Seed(v, t) && |u| < |v|
    ensures Continues(u, v)
  {
    var m, n := Normalize(s), Normalize(t);
    var x := u + ":" + m;
    assert x == v + ":" + n;
    var q := v[|u| + 1..];
    assert v == x[..|v|] && x[..|u|] == u && x[|u|] == ':';
    assert v == u + ":" + q;
    assert m == x[|u| + 1..] && q + ":" == x[|u| + 1..|v| + 1];
    assert q + ":" == m[..|q| + 1];
    NormalFormsAreCanonical(s);
    assert m[|q|] == ':';
    assert Canonical(m[..|q| + 1]);
    NormalFormsAreCanonical(q + ":");
  }

  lemma SeedsOfOneLength(u: string, s: string, v: string, t: string)
    requires Seed(u, s) == Seed(v, t) && |u| == |v|
    ensures u == v
  {
    assert u == Seed(u, s)[..|u|] && v == Seed(v, t)[..|v|];
  }

  lemma BlankIsEmpty()
    ensures Normalize(" ") == ""
  {
    LowerFixes(" ");
    assert Split(" ") == Split(" "[1..]) == [];
  }

  // Two users can share a seed, and with it an id, exactly if their ids are so related.
  lemma SharedSeedsIff(u: string, v: string)
    requires u != v
    ensures (exists s, t :: s != "" && t != "" && Seed(u, s) == Seed(v, t)) <==> CanShareSeeds(u, v)
  {
    if s, t :| s != "" && t != "" && Seed(u, s) == Seed(v, t) {
      if |u| == |v| {
        SeedsOfOneLength(u, s, v, t);
      } else if |u| < |v| {
        SharedSeedContinues(u, s, v, t);
      } else {
        SharedSeedContinues(v, t, u, s);
      }
    }
    if Continues(u, v) {
      var q :| v == u + ":" + q && Normalize(q + ":") == q + ":";
      ColonInUserShares(u, q);
    }
    if Continues(v, u) {
      var q :| u == v + ":" + q && Normalize(q + ":") == q + ":";
      ColonInUserShares(v, q);
    }
  }

  // The seeds they share: a text of the one that spells out the other's id.
  lemma ColonInUserShares(u: string, q: string)
    requires Normalize(q + ":") == q + ":"
    ensures Seed(u, q + ":") == Seed(u + ":" + q, " ")
    ensures Normalize(q + ":") != Normalize(" ")
  {
    BlankIsEmpty();
    assert u + ":" + (q + ":") == u + ":" + q + ":" + "";
  }

  // In particular users without a colon cannot.
  lemma SharingTakesAColon(u: string, v: string)
    requires CanShareSeeds(u, v)
    ensures ':' in u || ':' in v
  {
    if Continues(u, v) {
      var q :| v == u + ":" + q && Normalize(q + ":") == q + ":";
      assert v[|u|] == ':';
    } else {
      var q :| u == v + ":" + q && Normalize(q + ":") == q + ":";
      assert u[|v|] == ':';
    }
  }

  // What follows the colon decides: characters that normalizing leaves alone make the two
  // users share, and one capital keeps them apart.
  lemma PlainContinuationShares(u: string, q: string)
    requires UNICODE.Settled(':') && !IsSpace(':')
    requires forall i :: 0 <= i < |q| ==> UNICODE.Settled(q[i]) && !IsSpace(q[i])
    ensures CanShareSeeds(u, u + ":" + q)
  {
    NormalFormsAreCanonical(q + ":");
  }

  lemma CapitalKeepsApart(u: string, q: string, i: nat)
    requires i < |q| && !UNICODE.Settled(q[i])
    ensures !CanShareSeeds(u, u + ":" + q)
  {
    var v := u + ":" + q;
    forall p | v == u + ":" + p ensures Normalize(p + ":") != p + ":" {
      assert p == v[|u| + 1..] == q;
      NormalFormsAreCanonical(p + ":");
      assert (p + ":")[i] == q[i];
    }
    forall p ensures u != v + ":" + p {
      assert |v + ":" + p| > |u|;
    }
  }

  lemma SeedsOfOneText(u: string, v: string, n: string)
    requires u + ":" + n == v + ":" + n
    ensures u == v
  {
    assert |u + ":" + n| == |u| + 1 + |n| && |v + ":" + n| == |v| + 1 + |n|;
    assert u == (u + ":" + n)[..|u|] && v == (v + ":" + n)[..|v|];
  }

  lemma SameUserDetermines(sha: string -> Digest, u: string, s: string, t: string)
    requires NoClash(sha, Seed(u, s), Seed(u, t))
    ensures DerivedId(sha, u, s) == DerivedId(sha, u, t) <==> Normalize(s) == Normalize(t)
  {
    UuidLikeKeepsDigits(sha(Seed(u, s)), sha(Seed(u, t)));
    assert Normalize(s) == Seed(u, s)[|u| + 1..] && Normalize(t) == Seed(u, t)[|u| + 1..];
  }

  // For users that cannot share seeds, derived ids agree exactly for the same user and the
  // same normal form.
  lemma DerivedIdDetermines(sha: string -> Digest, u: string, s: string, v: string, t: string)
    requires s != "" && t != "" && (u == v || !CanShareSeeds(u, v))
    requires NoClash(sha, Seed(u, s), Seed(v, t))
    ensures DerivedId(sha, u, s) == DerivedId(sha, v, t) <==> u == v && Normalize(s) == Normalize(t)
  {
    if u == v {
      SameUserDetermines(sha, u, s, t);
    } else {
      UuidLikeKeepsDigits(sha(Seed(u, s)), sha(Seed(v, t)));
      SharedSeedsIff(u, v);
    }
  }

  // The same text sent by different users gets different ids, colon or no colon.
  lemma DifferentUsersDifferentIds(sha: string -> Digest, u: string, v: string, text: string)
    requires NoClash(sha, Seed(u, text), Seed(v, text))
    requires u != v
    ensures DerivedId(sha, u, text) != DerivedId(sha, v, text)
  {
    UuidLikeKeepsDigits(sha(Seed(u, text)), sha(Seed(v, text)));
    if Seed(u, text) == Seed(v, text) {
      SeedsOfOneText(u, v, Normalize(text));
    }
  }

  // For users that can, the id tells neither them nor their texts apart, whatever the digest.
  lemma SharedSeedsShareIds(sha: string -> Digest, u: string, v: string)
    requires CanShareSeeds(u, v)
    ensures exists s, t :: s != "" && t != "" && DerivedId(sha, u, s) == DerivedId(sha, v, t) && Normalize(s) != Normalize(t)
  {
    if Continues(u, v) {
      var q :| v == u + ":" + q && Normalize(q + ":") == q + ":";
      ColonInUserShares(u, q);
      assert DerivedId(sha, u, q + ":") == DerivedId(sha, v, " ");
    } else {
      var q :| u == v + ":" + q && Normalize(q + ":") == q + ":";
      ColonInUserShares(v, q);
      assert DerivedId(sha, v, q + ":") == DerivedId(sha, u, " ");
    }
  }
}
