/** The MOVE destination resolver (`computeDestS3Key` in index.ts,
    `compute_s3_dest_key` in __init__.py; the two are the same algorithm).
    The bucket is flat, so the object key a MOVE names is the last
    '/'-segment of its Destination header (section 10.3 of RFC 4918); the
    resolver accepts that segment only when the header is everything before
    the request URL's last '/', then '/', then the segment, that is, a
    rename inside the collection the request addresses. For a URL without
    '/' that prefix is empty, so the header must be '/' and the segment. */
module DestKey {
  import opened Http
  import opened Segments

  /** The key a MOVE's Destination header names, or None when the header is
      absent, empty, or points outside the request's collection. */
  function ResolveDestKey(destHeader: Option<string>, originalUrl: string): (key: Option<string>)
    ensures destHeader.None? || destHeader == Some("") ==> key.None?
    ensures key.Some? ==> '/' !in key.value
    ensures key.Some? ==> destHeader == Some(DropLast(originalUrl) + "/" + key.value)
  {
    if destHeader.None? || destHeader.value == "" then
      None
    else
      var key := Last(destHeader.value);
      SplitAtLastSlash(destHeader.value);
      if DropLast(originalUrl) + "/" + key != destHeader.value then None else Some(key)
  }

  /** Every '/'-free name in the request's collection is accepted, and
      resolves to itself. */
  lemma ResolveComplete(originalUrl: string, key: string)
    requires '/' !in key
    ensures ResolveDestKey(Some(DropLast(originalUrl) + "/" + key), originalUrl) == Some(key)
  {
    LastOfSlashed(DropLast(originalUrl), key);
  }

  /** The resolver accepts exactly the headers "collection of the request
      URL, '/', a '/'-free key", and returns that key. */
  lemma ResolveExactly(destHeader: Option<string>, originalUrl: string, key: string)
    ensures ResolveDestKey(destHeader, originalUrl) == Some(key)
        <==> '/' !in key && destHeader == Some(DropLast(originalUrl) + "/" + key)
  {
    if '/' !in key && destHeader == Some(DropLast(originalUrl) + "/" + key) {
      ResolveComplete(originalUrl, key);
    }
  }

  /** A header is accepted iff it has a '/' and the same collection part
      (everything before the last '/') as the request URL: MOVE only renames
      inside one flat collection. */
  lemma ResolveSameCollection(destHeader: string, originalUrl: string)
    ensures ResolveDestKey(Some(destHeader), originalUrl).Some?
        <==> '/' in destHeader && DropLast(destHeader) == DropLast(originalUrl)
  {
    var base := DropLast(originalUrl);
    SplitAtLastSlash(destHeader);
    var r := ResolveDestKey(Some(destHeader), originalUrl);
    if r.Some? {
      var k := r.value;
      assert destHeader == base + "/" + k;
      assert destHeader[|base|] == '/';
      LastOfSlashed(base, k);
    }
    if '/' in destHeader && DropLast(destHeader) == base {
      ResolveComplete(originalUrl, Last(destHeader));
    }
  }

  /** A header without any '/' never resolves. */
  lemma ResolveNeedsSlash(destHeader: string, originalUrl: string)
    requires '/' !in destHeader
    ensures ResolveDestKey(Some(destHeader), originalUrl) == None
  {
  }

  /** A header ending in '/' after the request's collection resolves to the
      empty key (which the request parsers then refuse). */
  lemma ResolveTrailingSlash(originalUrl: string)
    ensures ResolveDestKey(Some(DropLast(originalUrl) + "/"), originalUrl) == Some("")
  {
    assert DropLast(originalUrl) + "/" == DropLast(originalUrl) + "/" + "";
    ResolveComplete(originalUrl, "");
  }

  /** A rename inside `/c` is accepted; a destination in `/other` is not. */
  lemma ResolveExamples()
    ensures ResolveDestKey(Some("/c/xyz.txt"), "/c/abc.txt") == Some("xyz.txt")
    ensures ResolveDestKey(Some("/other/xyz.txt"), "/c/abc.txt") == None
  {
    assert "/c/abc.txt" == "/c" + "/" + "abc.txt";
    LastOfSlashed("/c", "abc.txt");
    assert "/c/xyz.txt" == "/c" + "/" + "xyz.txt";
    ResolveComplete("/c/abc.txt", "xyz.txt");
  }
}
