/** The split of a URL list into the entries `new URL(...)` accepts and those it rejects,
    which both the page (app/page.tsx) and the analyse route (app/api/analyze/route.ts)
    compute with a loop. URL well-formedness is the parameter `isUrl`. */
module UrlFilter {

  /** The accepted entries, in input order. */
  function Accepted(urls: seq<string>, isUrl: string -> bool): (valid: seq<string>)
    ensures |valid| <= |urls|
    ensures forall u :: u in valid ==> u in urls && isUrl(u)
  {
    if urls == [] then []
    else Accepted(urls[..|urls| - 1], isUrl) + (if isUrl(urls[|urls| - 1]) then [urls[|urls| - 1]] else [])
  }

  /** The rejected entries, in input order. */
  function Rejected(urls: seq<string>, isUrl: string -> bool): (invalid: seq<string>)
    ensures |invalid| <= |urls|
    ensures forall u :: u in invalid ==> u in urls && !isUrl(u)
  {
    if urls == [] then []
    else Rejected(urls[..|urls| - 1], isUrl) + (if isUrl(urls[|urls| - 1]) then [] else [urls[|urls| - 1]])
  }

  /** `sub` is `s` with some entries left out, the rest in order. */
  predicate IsSubsequence(sub: seq<string>, s: seq<string>)
    decreases |s|
  {
    if sub == [] then true
    else if s == [] then false
    else if sub[|sub| - 1] == s[|s| - 1] then IsSubsequence(sub[..|sub| - 1], s[..|s| - 1])
    else IsSubsequence(sub, s[..|s| - 1])
  }

  /** The two parts together hold every entry, each exactly once. */
  lemma {:induction false} PartitionCounts(urls: seq<string>, isUrl: string -> bool)
    ensures |Accepted(urls, isUrl)| + |Rejected(urls, isUrl)| == |urls|
    ensures multiset(Accepted(urls, isUrl)) + multiset(Rejected(urls, isUrl)) == multiset(urls)
  {
    if urls != [] {
      var init, last := urls[..|urls| - 1], urls[|urls| - 1];
      PartitionCounts(init, isUrl);
      assert urls == init + [last];
      assert multiset(urls) == multiset(init) + multiset{last};
    }
  }

  /** The accepted part keeps the input order. */
  lemma {:induction false} AcceptedOrdered(urls: seq<string>, isUrl: string -> bool)
    ensures IsSubsequence(Accepted(urls, isUrl), urls)
  {
    if urls != [] {
      var init, last := urls[..|urls| - 1], urls[|urls| - 1];
      AcceptedOrdered(init, isUrl);
      var a := Accepted(init, isUrl);
      if isUrl(last) {
        var sub := a + [last];
        assert Accepted(urls, isUrl) == sub;
        assert sub[..|sub| - 1] == a && sub[|sub| - 1] == last;
      } else {
        assert Accepted(urls, isUrl) == a;
        assert init + [last] == urls;
        SubsequenceExtend(a, init, last);
      }
    }
  }

  /** The rejected part keeps the input order. */
  lemma {:induction false} RejectedOrdered(urls: seq<string>, isUrl: string -> bool)
    ensures IsSubsequence(Rejected(urls, isUrl), urls)
  {
    if urls != [] {
      var init, last := urls[..|urls| - 1], urls[|urls| - 1];
      RejectedOrdered(init, isUrl);
      var b := Rejected(init, isUrl);
      if !isUrl(last) {
        var sub := b + [last];
        assert Rejected(urls, isUrl) == sub;
        assert sub[..|sub| - 1] == b && sub[|sub| - 1] == last;
      } else {
        assert Rejected(urls, isUrl) == b;
        assert init + [last] == urls;
        SubsequenceExtend(b, init, last);
      }
    }
  }

  /** Appending an entry to the list keeps a subsequence a subsequence. */
  lemma {:induction false} SubsequenceExtend(sub: seq<string>, s: seq<string>, x: string)
    requires IsSubsequence(sub, s)
    ensures IsSubsequence(sub, s + [x])
    decreases |s|, 1
  {
    assert (s + [x])[..|s|] == s;
    if sub != [] && sub[|sub| - 1] == x {
      SubsequenceDropLast(sub, s);
    }
  }

  /** Dropping the last entry of a subsequence keeps it a subsequence. */
  lemma {:induction false} SubsequenceDropLast(sub: seq<string>, s: seq<string>)
    requires sub != [] && IsSubsequence(sub, s)
    ensures IsSubsequence(sub[..|sub| - 1], s)
    decreases |s|, 0
  {
    var init := s[..|s| - 1];
    assert init + [s[|s| - 1]] == s;
    if sub[|sub| - 1] != s[|s| - 1] {
      SubsequenceDropLast(sub, init);
    }
    SubsequenceExtend(sub[..|sub| - 1], init, s[|s| - 1]);
  }
}
