/** The bucket as the router sees it through `listObjectsV2`: an ordered
    sequence of object keys, listed by key prefix and, optionally, rolled up at
    the '/' delimiter into common prefixes. */
module ObjectStore {
  import opened Keys

  /** The parameters of a listing: `Bucket`, `Prefix` ("" when absent) and
      whether `Delimiter: '/'` is given. */
  datatype ListRequest = ListRequest(bucket: string, prefix: string, delimited: bool)

  /** The part of a listing reply the router reads: the `Prefix` of each entry of
      `CommonPrefixes` and the `Key` of each entry of `Contents`. */
  datatype Listing = Listing(commonPrefixes: seq<string>, contents: seq<string>)

  /** True when `key` is rolled up into a common prefix by listing `q`. */
  predicate RolledUp(q: ListRequest, key: string)
    requires q.prefix <= key
  {
    q.delimited && Delimiter in key[|q.prefix|..]
  }

  /** The common prefix `key` is rolled up into: the listing prefix, then the
      key's text up to and including its next '/'. */
  function CommonPrefixOf(q: ListRequest, key: string): string
    requires q.prefix <= key
  {
    q.prefix + FirstSegment(key[|q.prefix|..]) + [Delimiter]
  }

  /** The listing of `store` under `q`: every key that starts with the prefix
      appears either itself in `contents` or through its common prefix, and no
      common prefix appears twice. Contents keep the order of `store`, which is
      taken to be the order the store lists keys in; that order is not stated
      as a contract. */
  function ListObjects(store: seq<string>, q: ListRequest): (l: Listing)
    ensures forall k :: k in l.contents <==> k in store && q.prefix <= k && !RolledUp(q, k)
    ensures forall p :: p in l.commonPrefixes <==>
      exists k :: k in store && q.prefix <= k && RolledUp(q, k) && p == CommonPrefixOf(q, k)
    ensures !q.delimited ==> l.commonPrefixes == []
    ensures forall i, j :: 0 <= i < j < |l.commonPrefixes| ==> l.commonPrefixes[i] != l.commonPrefixes[j]
    ensures |l.contents| + |l.commonPrefixes| <= |store|
    decreases |store|
  {
    if store == [] then Listing([], [])
    else
      var l := ListObjects(store[..|store| - 1], q);
      var k := store[|store| - 1];
      assert store == store[..|store| - 1] + [k];
      if !(q.prefix <= k) then l
      else if RolledUp(q, k) then
        var p := CommonPrefixOf(q, k);
        if p in l.commonPrefixes then l else Listing(l.commonPrefixes + [p], l.contents)
      else Listing(l.commonPrefixes, l.contents + [k])
  }
}
