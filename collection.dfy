/** A Mongoose collection read in natural (insertion) order: `findOne({ key: k })`
    and `findOneAndUpdate({ key: k }, ...)` both pick the FIRST document whose key
    field equals `k`. */
module Collection {
  import opened Wrappers

  /** The index of the first document whose key is `k`, or `None`. */
  function FindFirst<T>(docs: seq<T>, key: T -> string, k: string): (r: Option<nat>)
    ensures r.Some? ==> r.value < |docs| && key(docs[r.value]) == k
    ensures r.Some? ==> forall j :: 0 <= j < r.value ==> key(docs[j]) != k
    ensures r.None? <==> forall j :: 0 <= j < |docs| ==> key(docs[j]) != k
  {
    if |docs| == 0 then None
    else if key(docs[0]) == k then Some(0)
    else match FindFirst(docs[1..], key, k) {
      case None => None
      case Some(i) => Some(i + 1)
    }
  }

  /** Inserting at the end never hides an earlier match; the new document is found
      only when nothing before it matches. */
  lemma FindFirstAppend<T>(docs: seq<T>, d: T, key: T -> string, k: string)
    ensures FindFirst(docs + [d], key, k) ==
      if FindFirst(docs, key, k).Some? then FindFirst(docs, key, k)
      else if key(d) == k then Some(|docs|)
      else None
  {
    var r, r' := FindFirst(docs, key, k), FindFirst(docs + [d], key, k);
    assert forall j :: 0 <= j < |docs| ==> (docs + [d])[j] == docs[j];
    if r.Some? {
      assert key((docs + [d])[r.value]) == k;
    } else if key(d) == k {
      assert key((docs + [d])[|docs|]) == k;
    }
  }

  /** Rewriting a document without touching its key leaves every lookup by that
      key where it was. */
  lemma FindFirstKeyPreserving<T>(docs: seq<T>, i: nat, d: T, key: T -> string, k: string)
    requires i < |docs| && key(d) == key(docs[i])
    ensures FindFirst(docs[i := d], key, k) == FindFirst(docs, key, k)
  {
    var r, r' := FindFirst(docs, key, k), FindFirst(docs[i := d], key, k);
    assert forall j :: 0 <= j < |docs| ==> key(docs[i := d][j]) == key(docs[j]);
    if r.Some? {
      assert key(docs[i := d][r.value]) == k;
    }
  }

  /** `findOne({ key: k })`: the first document whose key is `k`, or `null`. */
  function FindOne<T>(docs: seq<T>, key: T -> string, k: string): (r: Option<T>)
    ensures r.Some? ==> r.value in docs && key(r.value) == k
    ensures r.None? <==> forall d :: d in docs ==> key(d) != k
  {
    match FindFirst(docs, key, k)
    case None => None
    case Some(i) => Some(docs[i])
  }
}
