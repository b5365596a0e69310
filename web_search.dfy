/**
 * The formatting half of `web_search` in
 * `backend/app/tools/web_search_tool.py`: once the search engine has
 * answered, the first three organic results become numbered paragraphs
 * `i. title - snippet (link)`, with a placeholder for any missing field.
 * The search request itself is not modelled.
 */
module WebSearch {
  import opened Wrappers
  import opened Text

  /** One entry of `organic_results`; each field may be missing or `null`. */
  datatype SearchHit = SearchHit(title: Field<string>, snippet: Field<string>, link: Field<string>)

  const NoResults: string := "can't find any search results"
  const EntrySeparator: string := "\n\n"
  const NoTitle: string := "No tiltle"
  const NoSnippet: string := "No snippet"
  const NoLink: string := "No link"

  /** At most this many results are shown. */
  const MaxResults: nat := 3

  /**
   * `f"{result.get(key, default)}"`: a present field prints as itself, a
   * missing one as the default and a `null` one as `None`.
   */
  function Shown(f: Field<string>, default: string): (s: string)
    ensures f.Present? ==> s == f.value
    ensures f.Absent? ==> s == default
    ensures f.Null? ==> s == "None"
  {
    f.Get(default).GetOr("None")
  }

  /** The text of an entry with number `n`, title `t`, snippet `s` and link `l`. */
  function Layout(n: string, t: string, s: string, l: string): string {
    n + ". " + t + " - " + s + " (" + l + ")"
  }

  /** A slice that lies within `a` is the same in `a + b`. */
  lemma SliceOfPrefix(a: string, b: string, lo: nat, hi: nat)
    requires lo <= hi <= |a|
    ensures (a + b)[lo..hi] == a[lo..hi]
  {
  }

  /**
   * `e` reads back as `n. t - s (l)`: each piece sits in its own place
   * between the fixed separators, and `)` ends it.
   */
  predicate LaidOut(e: string, n: string, t: string, s: string, l: string) {
    var ts, ss, ls := |n| + 2, |n| + |t| + 5, |n| + |t| + |s| + 7;
    && |e| == ls + |l| + 1
    && e[..|n|] == n && e[|n|..ts] == ". "
    && e[ts..ts + |t|] == t && e[ts + |t|..ss] == " - "
    && e[ss..ss + |s|] == s && e[ss + |s|..ls] == " ("
    && e[ls..ls + |l|] == l && e[ls + |l|] == ')'
  }

  /** The layout of the four pieces reads back as them. */
  lemma LayoutPieces(n: string, t: string, s: string, l: string)
    ensures LaidOut(Layout(n, t, s, l), n, t, s, l)
  {
    var p1 := n + ". ";
    var p2 := p1 + t;
    var p3 := p2 + " - ";
    var p4 := p3 + s;
    var p5 := p4 + " (";
    var p6 := p5 + l;
    var e := p6 + ")";
    var ts, ss, ls := |n| + 2, |n| + |t| + 5, |n| + |t| + |s| + 7;
    SliceOfPrefix(p6, ")", ls, ls + |l|);
    SliceOfPrefix(p6, ")", ss + |s|, ls);
    SliceOfPrefix(p5, l, ss + |s|, ls);
    SliceOfPrefix(p6, ")", ss, ss + |s|);
    SliceOfPrefix(p5, l, ss, ss + |s|);
    SliceOfPrefix(p4, " (", ss, ss + |s|);
    SliceOfPrefix(p6, ")", ts + |t|, ss);
    SliceOfPrefix(p5, l, ts + |t|, ss);
    SliceOfPrefix(p4, " (", ts + |t|, ss);
    SliceOfPrefix(p3, s, ts + |t|, ss);
    SliceOfPrefix(p6, ")", ts, ts + |t|);
    SliceOfPrefix(p5, l, ts, ts + |t|);
    SliceOfPrefix(p4, " (", ts, ts + |t|);
    SliceOfPrefix(p3, s, ts, ts + |t|);
    SliceOfPrefix(p2, " - ", ts, ts + |t|);
    SliceOfPrefix(p6, ")", |n|, ts);
    SliceOfPrefix(p5, l, |n|, ts);
    SliceOfPrefix(p4, " (", |n|, ts);
    SliceOfPrefix(p3, s, |n|, ts);
    SliceOfPrefix(p2, " - ", |n|, ts);
    SliceOfPrefix(p1, t, |n|, ts);
    SliceOfPrefix(p6, ")", 0, |n|);
    SliceOfPrefix(p5, l, 0, |n|);
    SliceOfPrefix(p4, " (", 0, |n|);
    SliceOfPrefix(p3, s, 0, |n|);
    SliceOfPrefix(p2, " - ", 0, |n|);
    SliceOfPrefix(p1, t, 0, |n|);
    SliceOfPrefix(n, ". ", 0, |n|);
  }

  /** The paragraph `i. title - snippet (link)` of the `i`-th result (counting from 1). */
  function Entry(i: nat, hit: SearchHit): (e: string)
    ensures IsPrefix(NatToString(i) + ". ", e)
  {
    var n := NatToString(i);
    var e := Layout(n, Shown(hit.title, NoTitle), Shown(hit.snippet, NoSnippet), Shown(hit.link, NoLink));
    assert e[..|n| + 2] == n + ". ";
    e
  }

  /**
   * An entry reads back: its number, title, snippet and link each sit in
   * their own place between the fixed separators.
   */
  lemma EntryFields(i: nat, hit: SearchHit)
    ensures LaidOut(Entry(i, hit), NatToString(i), Shown(hit.title, NoTitle), Shown(hit.snippet, NoSnippet), Shown(hit.link, NoLink))
  {
    var n, t, s, l := NatToString(i), Shown(hit.title, NoTitle), Shown(hit.snippet, NoSnippet), Shown(hit.link, NoLink);
    assert Entry(i, hit) == Layout(n, t, s, l);
    LayoutPieces(n, t, s, l);
  }

  /** The paragraphs of the hits, numbered from 1. */
  function Entries(hits: seq<SearchHit>): (r: seq<string>)
    ensures |r| == |hits|
  {
    seq(|hits|, i requires 0 <= i < |hits| => Entry(i + 1, hits[i]))
  }

  /** The first three hits, or all of them when there are fewer. */
  function TopHits(hits: seq<SearchHit>): (top: seq<SearchHit>)
    ensures |top| == if |hits| < MaxResults then |hits| else MaxResults
    ensures top == hits[..|top|]
  {
    hits[..if |hits| < MaxResults then |hits| else MaxResults]
  }

  /** What `web_search` returns once the search has answered with `organic_results`. */
  function FormattedResults(organic: Field<seq<SearchHit>>): string {
    var hits := organic.Get([]);
    if hits.None? || |hits.value| == 0 then NoResults else Join(Entries(TopHits(hits.value)), EntrySeparator)
  }

  /** The loop that numbers the top results, then their join. */
  method FormatResults(organic: Field<seq<SearchHit>>) returns (text: string)
    ensures text == FormattedResults(organic)
  {
    var organicResults := organic.Get([]);
    if organicResults.None? || |organicResults.value| == 0 {
      return NoResults;
    }
    var top := TopHits(organicResults.value);
    var formatted: seq<string> := [];
    for i := 0 to |top|
      invariant formatted == Entries(top)[..i]
    {
      var result := top[i];
      var title := result.title.Get(NoTitle).GetOr("None");
      var snippet := result.snippet.Get(NoSnippet).GetOr("None");
      var link := result.link.Get(NoLink).GetOr("None");
      formatted := formatted + [NatToString(i + 1) + ". " + title + " - " + snippet + " (" + link + ")"];
    }
    assert Entries(top)[..|top|] == Entries(top);
    text := Join(formatted, EntrySeparator);
  }

  /** The no-results message is returned exactly when there are no results. */
  lemma NoResultsIffEmpty(organic: Field<seq<SearchHit>>)
    ensures FormattedResults(organic) == NoResults <==> !organic.Present? || organic.value == []
  {
    if organic.Present? && |organic.value| > 0 {
      var hits := organic.value;
      var entries := Entries(TopHits(hits));
      JoinStartsWith(entries, EntrySeparator);
      var text := FormattedResults(organic);
      assert IsPrefix(NatToString(1) + ". ", entries[0]);
      assert text[0] == entries[0][0] == NatToString(1)[0];
      assert NoResults[0] == 'c';
    }
  }

  /** Results after the third change nothing. */
  lemma OnlyTopThreeMatter(hits: seq<SearchHit>)
    requires |hits| >= MaxResults
    ensures FormattedResults(Present(hits)) == FormattedResults(Present(hits[..MaxResults]))
  {
    assert TopHits(hits[..MaxResults]) == TopHits(hits);
  }

  /** Every shown result's paragraph appears verbatim, under its number. */
  lemma EntryShown(hits: seq<SearchHit>, i: nat)
    requires i < |hits| && i < MaxResults
    ensures IsInfix(Entry(i + 1, hits[i]), FormattedResults(Present(hits)))
  {
    var top := TopHits(hits);
    assert top[i] == hits[i];
    JoinContains(Entries(top), EntrySeparator, i);
  }

  /** k shown results are separated by k - 1 blank lines. */
  lemma ResultsLength(hits: seq<SearchHit>)
    requires |hits| > 0
    ensures var entries := Entries(TopHits(hits));
      |FormattedResults(Present(hits))| == SumLengths(entries) + (|entries| - 1) * |EntrySeparator|
  {
    JoinLength(Entries(TopHits(hits)), EntrySeparator);
  }
}
