/** The one similarity relation shared by live deduplication and the memory audit. */
module Similarity {

  /** What both sides compute from a stripped body: its normal form and its content tokens. */
  datatype Profile = Profile(norm: string, tokens: set<string>)

  const DEDUP_THRESHOLD := 0.7

  predicate Contains(hay: string, needle: string) {
    exists i :: 0 <= i <= |hay| - |needle| && OccursAt(hay, needle, i)
  }

  predicate OccursAt(hay: string, needle: string, i: nat)
    requires i <= |hay| - |needle|
  {
    hay[i..i + |needle|] == needle
  }

  /** Szymkiewicz-Simpson overlap of two token sets reaches `threshold`. */
  predicate Overlapping(a: set<string>, b: set<string>, threshold: real) {
    var smaller := if |a| < |b| then |a| else |b|;
    smaller >= 2 && |a * b| as real / smaller as real >= threshold
  }

  predicate Similar(a: Profile, b: Profile, threshold: real) {
    && a.norm != "" && b.norm != ""
    && (|| a.norm == b.norm
        || Contains(b.norm, a.norm)
        || Contains(a.norm, b.norm)
        || Overlapping(a.tokens, b.tokens, threshold))
  }

  lemma SimilarSymmetric(a: Profile, b: Profile, threshold: real)
    ensures Similar(a, b, threshold) == Similar(b, a, threshold)
  {
    assert a.tokens * b.tokens == b.tokens * a.tokens;
  }

  lemma SimilarAntitone(a: Profile, b: Profile, low: real, high: real)
    requires low <= high && Similar(a, b, high)
    ensures Similar(a, b, low)
  {
  }
}
