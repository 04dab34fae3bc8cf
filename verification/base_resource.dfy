/** The lookups every resource shares: name matching over a listing (first match and
    all matches) and the scan for an exact code. */
module BaseResource {
  import opened Transport
  import Scan

  /** The characters PHP's `trim` strips by default: space, tab, line feed,
      carriage return, NUL and vertical tab. */
  predicate IsTrimChar(c: char) {
    c == ' ' || c == '\t' || c == '\n' || c == '\r' || c == '\0' || c == '\U{B}'
  }

  /** No trim character at either end. */
  predicate Unpadded(s: string) {
    s == [] || (!IsTrimChar(s[0]) && !IsTrimChar(s[|s| - 1]))
  }

  predicate AllTrimChars(s: string) {
    forall i | 0 <= i < |s| :: IsTrimChar(s[i])
  }

  /** Strips trim characters from the front of `s`. */
  function TrimLeft(s: string): (t: string)
    ensures |t| <= |s|
    ensures t == [] || !IsTrimChar(t[0])
  {
    if s != [] && IsTrimChar(s[0]) then TrimLeft(s[1..]) else s
  }

  /** Strips trim characters from the end of `s`. */
  function TrimRight(s: string): (t: string)
    ensures t <= s
    ensures t == [] || !IsTrimChar(t[|t| - 1])
  {
    if s != [] && IsTrimChar(s[|s| - 1]) then TrimRight(s[..|s| - 1]) else s
  }

  /** `TrimLeft` removes a prefix made only of trim characters. */
  lemma {:induction false} TrimLeftRemovesTrimChars(s: string)
    ensures TrimLeft(s) == s[|s| - |TrimLeft(s)|..]
    ensures AllTrimChars(s[..|s| - |TrimLeft(s)|])
  {
    if s != [] && IsTrimChar(s[0]) {
      TrimLeftRemovesTrimChars(s[1..]);
      assert s[1..][..|s| - 1 - |TrimLeft(s)|] == s[1..|s| - |TrimLeft(s)|];
    }
  }

  /** `TrimRight` removes a suffix made only of trim characters. */
  lemma {:induction false} TrimRightRemovesTrimChars(s: string)
    ensures AllTrimChars(s[|TrimRight(s)|..])
  {
    if s != [] && IsTrimChar(s[|s| - 1]) {
      TrimRightRemovesTrimChars(s[..|s| - 1]);
      assert s[..|s| - 1][|TrimRight(s)|..] == s[|TrimRight(s)|..|s| - 1];
    }
  }

  /** PHP's `trim`: strips trim characters from both ends and nothing else. */
  function Trim(s: string): (t: string)
    ensures Unpadded(t)
    ensures Unpadded(s) ==> t == s
  {
    TrimRight(TrimLeft(s))
  }

  /** Trim characters added around a string do not change what it trims to. */
  lemma {:induction false} TrimIgnoresPadding(pre: string, s: string, post: string)
    requires AllTrimChars(pre) && AllTrimChars(post)
    ensures Trim(pre + s + post) == Trim(s)
  {
    assert pre + s + post == pre + (s + post);
    TrimLeftPadding(pre, s + post);
    TrimLeftOfSuffix(s, post);
    var u := TrimLeft(s);
    if u != [] {
      assert TrimLeft(pre + s + post) == u + post;
      TrimRightOfPadding(u, post);
    } else {
      assert TrimLeft(pre + s + post) == [];
    }
  }

  lemma {:induction false} TrimLeftPadding(pre: string, s: string)
    requires AllTrimChars(pre)
    ensures TrimLeft(pre + s) == TrimLeft(s)
  {
    if pre != [] {
      assert (pre + s)[1..] == pre[1..] + s;
      TrimLeftPadding(pre[1..], s);
    } else {
      assert pre + s == s;
    }
  }

  /** Left-trimming `s + post` with only trim characters in `post` left-trims `s`
      and keeps `post`, unless `s` was nothing but trim characters. */
  lemma {:induction false} TrimLeftOfSuffix(s: string, post: string)
    requires AllTrimChars(post)
    ensures TrimLeft(s) != [] ==> TrimLeft(s + post) == TrimLeft(s) + post
    ensures TrimLeft(s) == [] ==> TrimLeft(s + post) == []
  {
    if s == [] {
      assert s + post == post;
      AllTrimLeftEmpty(post);
    } else if IsTrimChar(s[0]) {
      assert (s + post)[1..] == s[1..] + post;
      TrimLeftOfSuffix(s[1..], post);
    }
  }

  lemma {:induction false} AllTrimLeftEmpty(s: string)
    requires AllTrimChars(s)
    ensures TrimLeft(s) == []
  {
    if s != [] {
      AllTrimLeftEmpty(s[1..]);
    }
  }

  lemma {:induction false} TrimRightOfPadding(s: string, post: string)
    requires AllTrimChars(post)
    ensures TrimRight(s + post) == TrimRight(s)
  {
    if post != [] {
      var n := |post| - 1;
      assert (s + post)[..|s + post| - 1] == s + post[..n];
      TrimRightOfPadding(s, post[..n]);
    } else {
      assert s + post == s;
    }
  }

  /** `needle` occurs in `hay` starting at offset `i`. */
  predicate OccursAt(hay: string, needle: string, i: nat) {
    i + |needle| <= |hay| && hay[i..i + |needle|] == needle
  }

  /** `strpos($haystack, $needle) !== false`: a scan of `hay` for `needle`, one offset
      at a time (an empty needle is found at offset 0, as from PHP 8 on). */
  predicate Contains(hay: string, needle: string) {
    needle <= hay || (hay != [] && Contains(hay[1..], needle))
  }

  /** The scan succeeds exactly when `needle` occurs in `hay` at some offset. */
  lemma {:induction false} ContainsIsOccurrence(hay: string, needle: string)
    ensures Contains(hay, needle) <==> exists i: nat :: OccursAt(hay, needle, i)
    decreases |hay|, 1
  {
    if Contains(hay, needle) {
      ScanFindsOccurrence(hay, needle);
    }
    if exists i: nat :: OccursAt(hay, needle, i) {
      var i: nat :| OccursAt(hay, needle, i);
      OccurrenceFoundByScan(hay, needle, i);
    }
  }

  lemma {:induction false} ScanFindsOccurrence(hay: string, needle: string)
    requires Contains(hay, needle)
    ensures exists i: nat :: OccursAt(hay, needle, i)
    decreases |hay|, 0
  {
    if needle <= hay {
      assert OccursAt(hay, needle, 0);
    } else {
      var tail := hay[1..];
      ContainsIsOccurrence(tail, needle);
      var i: nat :| OccursAt(tail, needle, i);
      assert hay[i + 1..i + 1 + |needle|] == tail[i..i + |needle|];
      assert OccursAt(hay, needle, i + 1);
    }
  }

  lemma {:induction false} OccurrenceFoundByScan(hay: string, needle: string, i: nat)
    requires OccursAt(hay, needle, i)
    ensures Contains(hay, needle)
    decreases |hay|, 0
  {
    if i == 0 {
      assert needle <= hay;
    } else {
      var tail := hay[1..];
      assert tail[i - 1..i - 1 + |needle|] == hay[i..i + |needle|];
      assert OccursAt(tail, needle, i - 1);
      ContainsIsOccurrence(tail, needle);
    }
  }

  /** The query the helpers compare against: `mb_strtolower(trim($searchName))`.
      A query with nothing to trim is only lowercased. */
  function Needle(lower: Lowering, query: string): (needle: string)
    ensures Unpadded(query) ==> needle == lower(query)
  {
    lower(Trim(query))
  }

  /** The test both helpers apply to one record: its lowercased name equals the
      needle, or contains it. */
  predicate IsMatch(lower: Lowering, item: Region, needle: string) {
    var itemName := lower(item.name);
    itemName == needle || Contains(itemName, needle)
  }

  /** The equality branch of the test adds nothing: a record matches exactly when
      the partial-match test alone holds, that is, when the needle occurs in its
      lowercased name. */
  lemma MatchIsOccurrence(lower: Lowering, item: Region, needle: string)
    ensures IsMatch(lower, item, needle) <==> Contains(lower(item.name), needle)
    ensures IsMatch(lower, item, needle) <==> exists i: nat :: OccursAt(lower(item.name), needle, i)
  {
    var itemName := lower(item.name);
    ContainsIsOccurrence(itemName, needle);
    if itemName == needle {
      assert OccursAt(itemName, needle, 0);
    }
  }

  function MatchTest(lower: Lowering, query: string): Region -> bool {
    item => IsMatch(lower, item, Needle(lower, query))
  }

  /** What `searchByName` returns: the first record of the listing that matches. */
  function FirstMatch(lower: Lowering, data: seq<Region>, query: string): (r: Option<Region>)
    ensures r.None? <==> forall i | 0 <= i < |data| :: !IsMatch(lower, data[i], Needle(lower, query))
    ensures r.Some? ==> exists k | 0 <= k < |data| ::
      (data[k] == r.value && IsMatch(lower, data[k], Needle(lower, query))
       && forall j | 0 <= j < k :: !IsMatch(lower, data[j], Needle(lower, query)))
  {
    var k := Scan.FirstIndex(data, MatchTest(lower, query));
    if k < |data| then Some(data[k]) else None
  }

  /** What `searchAllByName` returns: every matching record, in listing order. */
  function AllMatches(lower: Lowering, data: seq<Region>, query: string): (r: seq<Region>)
    ensures |r| <= |data|
    ensures forall i | 0 <= i < |r| :: IsMatch(lower, r[i], Needle(lower, query))
  {
    Scan.Filter(data, MatchTest(lower, query))
  }

  /** What each resource's `find` returns: the first record whose code is `code`. */
  function WithCode(data: seq<Region>, code: string): (r: Option<Region>)
    ensures r.None? <==> forall i | 0 <= i < |data| :: data[i].code != code
    ensures r.Some? ==> exists k | 0 <= k < |data| ::
      (data[k] == r.value && data[k].code == code
       && forall j | 0 <= j < k :: data[j].code != code)
  {
    var k := Scan.FirstIndex(data, (item: Region) => item.code == code);
    if k < |data| then Some(data[k]) else None
  }

  /** `searchByName`: scans the listing in order and returns the first record whose
      lowercased name equals or contains the lowercased, trimmed query. */
  method SearchByName(lower: Lowering, data: seq<Region>, searchName: string) returns (r: Option<Region>)
    ensures r == FirstMatch(lower, data, searchName)
  {
    var needle := lower(Trim(searchName));
    var i := 0;
    while i < |data|
      invariant 0 <= i <= |data|
      invariant forall j | 0 <= j < i :: !IsMatch(lower, data[j], needle)
    {
      var itemName := lower(data[i].name);
      if itemName == needle {
        return Some(data[i]);
      }
      if Contains(itemName, needle) {
        return Some(data[i]);
      }
      i := i + 1;
    }
    return None;
  }

  /** `searchAllByName`: appends every matching record to the results, in listing order. */
  method SearchAllByName(lower: Lowering, data: seq<Region>, searchName: string) returns (results: seq<Region>)
    ensures results == AllMatches(lower, data, searchName)
  {
    var needle := lower(Trim(searchName));
    results := [];
    var i := 0;
    while i < |data|
      invariant 0 <= i <= |data|
      invariant results == AllMatches(lower, data[..i], searchName)
    {
      var itemName := lower(data[i].name);
      Scan.FilterAppend(data[..i], [data[i]], MatchTest(lower, searchName));
      assert data[..i + 1] == data[..i] + [data[i]];
      if itemName == needle || Contains(itemName, needle) {
        results := results + [data[i]];
      }
      i := i + 1;
    }
    assert data[..i] == data;
  }

  /** The `foreach` of every resource's `find`: returns the first record whose code
      is identical to `code`, or nothing. */
  method FindByCode(data: seq<Region>, code: string) returns (r: Option<Region>)
    ensures r == WithCode(data, code)
  {
    var i := 0;
    while i < |data|
      invariant 0 <= i <= |data|
      invariant forall j | 0 <= j < i :: data[j].code != code
    {
      if data[i].code == code {
        return Some(data[i]);
      }
      i := i + 1;
    }
    return None;
  }

  /** `searchAllByName` keeps exactly the matching records: each one as many times as
      the listing holds it when it matches, and none of those that do not. */
  lemma AllMatchesExact(lower: Lowering, data: seq<Region>, query: string, x: Region)
    ensures multiset(AllMatches(lower, data, query))[x]
      == if IsMatch(lower, x, Needle(lower, query)) then multiset(data)[x] else 0
    ensures x in AllMatches(lower, data, query) <==> x in data && IsMatch(lower, x, Needle(lower, query))
  {
    Scan.FilterCount(data, MatchTest(lower, query), x);
  }

  /** `searchAllByName` keeps listing order: the matches of a concatenation are the
      matches of its first part followed by those of its second. */
  lemma AllMatchesInOrder(lower: Lowering, a: seq<Region>, b: seq<Region>, query: string)
    ensures AllMatches(lower, a + b, query) == AllMatches(lower, a, query) + AllMatches(lower, b, query)
  {
    Scan.FilterAppend(a, b, MatchTest(lower, query));
  }

  /** The two helpers agree: `searchByName` is null exactly when `searchAllByName`
      is empty, and otherwise the first element of it. */
  lemma HelpersAgree(lower: Lowering, data: seq<Region>, query: string)
    ensures FirstMatch(lower, data, query)
      == if AllMatches(lower, data, query) == [] then None else Some(AllMatches(lower, data, query)[0])
  {
    Scan.FilterHeadIsFirst(data, MatchTest(lower, query));
  }

  /** Queries that lowercase and trim to the same needle give the same results. */
  lemma SameNeedleSameResults(lower: Lowering, data: seq<Region>, q1: string, q2: string)
    requires Needle(lower, q1) == Needle(lower, q2)
    ensures FirstMatch(lower, data, q1) == FirstMatch(lower, data, q2)
    ensures AllMatches(lower, data, q1) == AllMatches(lower, data, q2)
  {
    assert MatchTest(lower, q1) == MatchTest(lower, q2);
  }

  /** Surrounding whitespace in a query does not change either helper's result. */
  lemma PaddingIgnored(lower: Lowering, data: seq<Region>, pre: string, query: string, post: string)
    requires AllTrimChars(pre) && AllTrimChars(post)
    ensures FirstMatch(lower, data, pre + query + post) == FirstMatch(lower, data, query)
    ensures AllMatches(lower, data, pre + query + post) == AllMatches(lower, data, query)
  {
    TrimIgnoresPadding(pre, query, post);
    SameNeedleSameResults(lower, data, pre + query + post, query);
  }

  /** Looking up the first record by its own, unpadded name finds that record. */
  lemma FirstRecordFindsItself(lower: Lowering, data: seq<Region>)
    requires data != [] && Unpadded(data[0].name)
    ensures FirstMatch(lower, data, data[0].name) == Some(data[0])
  {
    var name := data[0].name;
    assert Needle(lower, name) == lower(name) by {
      assert Trim(name) == name;
    }
    assert MatchTest(lower, name)(data[0]);
    assert Scan.FirstIndex(data, MatchTest(lower, name)) == 0;
  }

  /** Round trip: a record that `searchAllByName` returns is found again by its code,
      and is exactly what `find` returns when codes in the listing are distinct. */
  lemma SearchedRecordFoundByCode(lower: Lowering, data: seq<Region>, query: string, x: Region)
    requires x in AllMatches(lower, data, query)
    ensures WithCode(data, x.code).Some? && WithCode(data, x.code).value.code == x.code
    ensures (forall i, j | 0 <= i < j < |data| :: data[i].code != data[j].code)
      ==> WithCode(data, x.code) == Some(x)
  {
    AllMatchesExact(lower, data, query, x);
    var i :| 0 <= i < |data| && data[i] == x;
    assert data[i].code == x.code;
  }
}
