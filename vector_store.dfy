/** The per-thread vector collection of the retrieval store. */
module VectorStore {
  import Text

  const CollectionPrefix := "code-review-"
  const MaxCollectionName := 64

  /**
   * `collection_name_for_thread`: the prefix and the thread id, every "/"
   * turned into "-", cut to 64 characters.
   */
  function CollectionName(threadId: string): (r: string)
    ensures Text.StartsWith(r, CollectionPrefix)
    ensures |r| <= MaxCollectionName
    ensures '/' !in r
    ensures '/' !in threadId && |threadId| <= MaxCollectionName - |CollectionPrefix| ==> r == CollectionPrefix + threadId
  {
    var full := CollectionPrefix + threadId;
    var r := Text.Take(Text.ReplaceChar(full, '/', '-'), MaxCollectionName);
    assert r[..|CollectionPrefix|] == full[..|CollectionPrefix|];
    assert '/' !in threadId ==> Text.ReplaceChar(full, '/', '-') == full;
    r
  }

  /** Two thread ids that differ only where one has "/" and the other "-" share a collection. */
  lemma SlashAndDashCollide(a: string, b: string)
    requires |a| == |b|
    requires forall i :: 0 <= i < |a| ==> a[i] == b[i] || (a[i] == '/' && b[i] == '-')
    ensures CollectionName(a) == CollectionName(b)
  {
    var fa, fb := CollectionPrefix + a, CollectionPrefix + b;
    assert Text.ReplaceChar(fa, '/', '-') == Text.ReplaceChar(fb, '/', '-');
  }
}
