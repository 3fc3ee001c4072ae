/**
 * The search bar: typing filters the page table by a case-insensitive
 * substring test, submitting navigates to the page whose name equals the
 * query ignoring case, and clicking a suggestion navigates to it. Both
 * navigations clear the query and the suggestions.
 *
 * Lower-casing and trimming are ASCII only.
 */
module Searchbar {
  import opened Common

  /** An entry of `AVAILABLE_PAGES`. */
  datatype Page = Page(name: string, path: string)

  const AvailablePages: seq<Page> := [
    Page("Home", "/"),
    Page("2D Fractals", "/2d"),
    Page("3D Fractals", "/3d"),
    Page("About", "/about"),
    Page("Mandelbrot", "/2d/mandelbrot"),
    Page("Julia", "/2d/julia"),
    Page("Burning Ship", "/2d/burning-ship"),
    Page("Sierpinski Triangle", "/2d/sierpinski"),
    Page("Koch Snowflake", "/2d/koch-snowflake"),
    Page("Barnsley Fern", "/2d/barnsley-fern"),
    Page("Mandelbulb", "/3d/mandelbulb"),
    Page("Menger Sponge", "/3d/menger-sponge"),
    Page("Quaternion Julia", "/3d/quaternion-julia"),
    Page("Kleinian Groups", "/3d/kleinian")
  ]

  function LowerChar(c: char): char
  {
    if 'A' <= c <= 'Z' then (c as int + 32) as char else c
  }

  /** `toLowerCase`, on ASCII letters. */
  function Lower(s: string): (t: string)
    ensures |t| == |s|
    ensures forall i :: 0 <= i < |s| ==> t[i] == LowerChar(s[i])
  {
    seq(|s|, i requires 0 <= i < |s| => LowerChar(s[i]))
  }

  /** The whitespace `trim` removes, restricted to ASCII. */
  predicate IsSpace(c: char)
  {
    c == ' ' || 9 <= c as int <= 13  // space, tab, line feed, vertical tab, form feed, carriage return
  }

  function TrimStart(s: string): (t: string)
    ensures |t| <= |s| && t == s[|s| - |t|..]
    ensures |t| > 0 ==> !IsSpace(t[0])
    ensures forall i :: 0 <= i < |s| - |t| ==> IsSpace(s[i])
  {
    if |s| > 0 && IsSpace(s[0]) then TrimStart(s[1..]) else s
  }

  function TrimEnd(s: string): (t: string)
    ensures |t| <= |s| && t == s[..|t|]
    ensures |t| > 0 ==> !IsSpace(t[|t| - 1])
    ensures forall i :: |t| <= i < |s| ==> IsSpace(s[i])
  {
    if |s| > 0 && IsSpace(s[|s| - 1]) then TrimEnd(s[..|s| - 1]) else s
  }

  /** `trim`: drop leading and trailing whitespace. */
  function Trim(s: string): string
  {
    TrimEnd(TrimStart(s))
  }

  /** The trimmed query is empty exactly when every character is whitespace. */
  lemma TrimEmptyIffBlank(s: string)
    ensures Trim(s) == "" <==> forall i :: 0 <= i < |s| ==> IsSpace(s[i])
  {
    var t := TrimStart(s);
    if |t| > 0 {
      assert !IsSpace(t[0]);
      assert t[0] == s[|s| - |t|];
    }
  }

  /** Whether the page's name contains the query, ignoring case. */
  predicate Matches(page: Page, query: string)
  {
    Contains(Lower(page.name), Lower(query))
  }

  /** The matching pages, in table order. */
  function Filter(pages: seq<Page>, query: string): (r: seq<Page>)
    ensures |r| <= |pages|
    ensures forall p :: p in r <==> p in pages && Matches(p, query)
  {
    if |pages| == 0 then []
    else (if Matches(pages[0], query) then [pages[0]] else []) + Filter(pages[1..], query)
  }

  /** `handleInputChange`'s suggestions: none for a blank query, otherwise the matching pages. */
  function Suggestions(value: string): (r: seq<Page>)
    ensures Trim(value) == "" ==> r == []
    ensures Trim(value) != "" ==> forall p :: p in r <==> p in AvailablePages && Matches(p, value)
  {
    if Trim(value) == "" then [] else Filter(AvailablePages, value)
  }

  /** The positions, from `from` on, of the pages that match, in increasing order. */
  function MatchPositions(pages: seq<Page>, query: string, from: nat): seq<nat>
    requires from <= |pages|
    decreases |pages| - from
  {
    if from == |pages| then []
    else (if Matches(pages[from], query) then [from] else []) + MatchPositions(pages, query, from + 1)
  }

  /**
   * `r` lists the pages at positions `idx`, which rise strictly, lie in
   * `from..|pages|` and include every matching position there.
   */
  predicate PicksInOrder(pages: seq<Page>, query: string, from: nat, r: seq<Page>, idx: seq<nat>)
  {
    && |idx| == |r|
    && (forall k :: 0 <= k < |r| ==> from <= idx[k] < |pages| && r[k] == pages[idx[k]])
    && (forall k, l :: 0 <= k < l < |idx| ==> idx[k] < idx[l])
    && (forall i :: from <= i < |pages| && Matches(pages[i], query) ==> i in idx)
  }

  /** A matching page in front of an ordered pick extends it by its own position. */
  lemma PicksTake(pages: seq<Page>, query: string, from: nat, rest: seq<Page>, restIdx: seq<nat>)
    requires from < |pages| && Matches(pages[from], query)
    requires PicksInOrder(pages, query, from + 1, rest, restIdx)
    ensures PicksInOrder(pages, query, from, [pages[from]] + rest, [from] + restIdx)
  {
    var r, idx := [pages[from]] + rest, [from] + restIdx;
    forall k | 0 <= k < |r|
      ensures from <= idx[k] < |pages| && r[k] == pages[idx[k]]
    {
      if k > 0 {
        assert r[k] == rest[k - 1] && idx[k] == restIdx[k - 1];
      }
    }
    forall k, l | 0 <= k < l < |idx|
      ensures idx[k] < idx[l]
    {
      assert idx[l] == restIdx[l - 1];
      if k > 0 {
        assert idx[k] == restIdx[k - 1];
      }
    }
    forall i | from <= i < |pages| && Matches(pages[i], query)
      ensures i in idx
    {
      if i > from {
        assert i in restIdx;
      }
    }
  }

  /** A page that does not match, in front of an ordered pick, leaves it ordered from its position on. */
  lemma PicksSkip(pages: seq<Page>, query: string, from: nat, rest: seq<Page>, restIdx: seq<nat>)
    requires from < |pages| && !Matches(pages[from], query)
    requires PicksInOrder(pages, query, from + 1, rest, restIdx)
    ensures PicksInOrder(pages, query, from, rest, restIdx)
  {
  }

  /** One unfolding of `Filter` on the suffix from `from`. */
  lemma FilterSuffix(pages: seq<Page>, query: string, from: nat)
    requires from < |pages|
    ensures Filter(pages[from..], query)
         == (if Matches(pages[from], query) then [pages[from]] else []) + Filter(pages[from + 1..], query)
  {
    assert pages[from..][0] == pages[from];
    assert pages[from..][1..] == pages[from + 1..];
  }

  lemma {:induction false} FilterPicksPositions(pages: seq<Page>, query: string, from: nat)
    requires from <= |pages|
    ensures PicksInOrder(pages, query, from, Filter(pages[from..], query), MatchPositions(pages, query, from))
    decreases |pages| - from
  {
    if from < |pages| {
      FilterPicksPositions(pages, query, from + 1);
      FilterSuffix(pages, query, from);
      var rest, restIdx := Filter(pages[from + 1..], query), MatchPositions(pages, query, from + 1);
      if Matches(pages[from], query) {
        PicksTake(pages, query, from, rest, restIdx);
      } else {
        PicksSkip(pages, query, from, rest, restIdx);
      }
    }
  }

  /**
   * `filter` keeps the matching pages once each and in table order: the
   * `k`-th result is the page at the `k`-th matching position.
   */
  lemma FilterInTableOrder(pages: seq<Page>, query: string)
    ensures PicksInOrder(pages, query, 0, Filter(pages, query), MatchPositions(pages, query, 0))
  {
    FilterPicksPositions(pages, query, 0);
    assert pages[0..] == pages;
  }

  /** For a query that is not blank, the suggestions are the matching pages in table order. */
  lemma SuggestionsInTableOrder(value: string)
    requires Trim(value) != ""
    ensures PicksInOrder(AvailablePages, value, 0, Suggestions(value), MatchPositions(AvailablePages, value, 0))
  {
    FilterInTableOrder(AvailablePages, value);
  }

  /** The search bar's state. */
  datatype Search = Search(query: string, suggestions: seq<Page>)

  /** `handleInputChange`: the query is the typed value, the suggestions follow it. */
  function InputChange(value: string): (s: Search)
    ensures s.query == value && s.suggestions == Suggestions(value)
  {
    Search(value, Suggestions(value))
  }

  /** The first page whose name equals the query ignoring case, as `find` returns it. */
  function FindExact(pages: seq<Page>, query: string): (r: Option<nat>)
    ensures r.Some? ==> r.value < |pages| && Lower(pages[r.value].name) == Lower(query)
    ensures r.Some? ==> forall j :: 0 <= j < r.value ==> Lower(pages[j].name) != Lower(query)
    ensures r.None? ==> forall j :: 0 <= j < |pages| ==> Lower(pages[j].name) != Lower(query)
  {
    if |pages| == 0 then None
    else if Lower(pages[0].name) == Lower(query) then Some(0)
    else match FindExact(pages[1..], query)
      case None => None
      case Some(k) => Some(k + 1)
  }

  /**
   * `handleSubmit`: on an exact match clear the bar and navigate to the
   * page; otherwise change nothing and stay.
   */
  function Submit(s: Search): (r: (Search, Option<string>))
    ensures FindExact(AvailablePages, s.query).None? ==> r == (s, None)
    ensures FindExact(AvailablePages, s.query).Some? ==>
      r == (Search("", []), Some(AvailablePages[FindExact(AvailablePages, s.query).value].path))
  {
    match FindExact(AvailablePages, s.query)
    case None => (s, None)
    case Some(i) => (Search("", []), Some(AvailablePages[i].path))
  }

  /** `handleSuggestionClick`: clear the bar and navigate to the clicked page. */
  function SuggestionClick(path: string): (r: (Search, Option<string>))
    ensures r.0.query == "" && r.0.suggestions == [] && r.1 == Some(path)
  {
    (Search("", []), Some(path))
  }

  /** No two pages share a name ignoring case, so the page `Submit` finds is the only match. */
  lemma NamesDistinctIgnoringCase()
    ensures forall i, j :: 0 <= i < j < |AvailablePages| ==>
      Lower(AvailablePages[i].name) != Lower(AvailablePages[j].name)
  {
    KeysDistinct();
    forall i, j | 0 <= i < j < |AvailablePages|
      ensures Lower(AvailablePages[i].name) != Lower(AvailablePages[j].name)
    {
      var a, b := AvailablePages[i].name, AvailablePages[j].name;
      if |a| == |b| && LowerChar(a[0]) == LowerChar(b[0]) {
        assert i == 4 && j == 10;
        assert a[7] == 'r' && b[7] == 'u';
        LowerDiffersAt(a, b, 7);
      } else if |a| == |b| {
        LowerDiffersAt(a, b, 0);
      }
    }
  }

  /** Names of the same length differ in their lower-cased first letter, except "Mandelbrot" and "Mandelbulb". */
  lemma KeysDistinct()
    ensures forall i, j :: 0 <= i < j < |AvailablePages| ==>
      || |AvailablePages[i].name| != |AvailablePages[j].name|
      || LowerChar(AvailablePages[i].name[0]) != LowerChar(AvailablePages[j].name[0])
      || (i == 4 && j == 10)
  {
  }

  lemma LowerDiffersAt(a: string, b: string, k: nat)
    requires k < |a| && k < |b| && LowerChar(a[k]) != LowerChar(b[k])
    ensures Lower(a) != Lower(b)
  {
    assert Lower(a)[k] != Lower(b)[k];
  }

  /** A needle found in a hay starts with a letter of the hay, early enough for the rest to fit. */
  lemma {:induction false} FoundFirstLetter(hay: string, needle: string)
    requires |needle| > 0 && Contains(hay, needle)
    ensures exists k :: 0 <= k <= |hay| - |needle| && hay[k] == needle[0]
    decreases |hay|
  {
    if hay[..|needle|] != needle {
      FoundFirstLetter(hay[1..], needle);
      var k :| 0 <= k <= |hay[1..]| - |needle| && hay[1..][k] == needle[0];
      assert hay[k + 1] == needle[0];
    } else {
      assert hay[0] == needle[0];
    }
  }

  /** A query whose first letter does not occur early enough in a name does not match it. */
  lemma NoMatchWithoutFirstLetter(page: Page, query: string)
    requires |query| > 0
    requires forall k :: 0 <= k <= |page.name| - |query| ==> LowerChar(page.name[k]) != LowerChar(query[0])
    ensures !Matches(page, query)
  {
    if Matches(page, query) {
      FoundFirstLetter(Lower(page.name), Lower(query));
    }
  }

  /** The filter does not trim: with a trailing space, "julia " matches no page. */
  lemma TrailingSpaceMatchesNothing()
    ensures Suggestions("julia ") == []
  {
    NoPageContainsJuliaSpace();
    JuliaSpaceIsNotBlank();
    FilterNone(AvailablePages, "julia ");
  }

  lemma NoPageContainsJuliaSpace()
    ensures forall i :: 0 <= i < |AvailablePages| ==> !Matches(AvailablePages[i], "julia ")
  {
    forall i | 0 <= i < |AvailablePages|
      ensures !Matches(AvailablePages[i], "julia ")
    {
      NoMatchWithoutFirstLetter(AvailablePages[i], "julia ");
    }
  }

  lemma JuliaSpaceIsNotBlank()
    ensures Trim("julia ") != ""
  {
    TrimEmptyIffBlank("julia ");
    assert !IsSpace("julia "[0]);
  }

  lemma {:induction false} FilterNone(pages: seq<Page>, query: string)
    requires forall i :: 0 <= i < |pages| ==> !Matches(pages[i], query)
    ensures Filter(pages, query) == []
  {
    if |pages| > 0 {
      FilterNone(pages[1..], query);
    }
  }
}
