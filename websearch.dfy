/**
 * The text side of src/tools/web_search.py: search hits rendered into a
 * bounded summary. Fetching and scraping the result page is a parameter of
 * the callers (see `Agent`), not modelled here.
 */
module WebSearch {
  import opened Wrappers
  import opened Strings

  /** One hit as `perform_web_search` builds it. */
  datatype SearchItem = SearchItem(title: string, link: string, snippet: string, displayLink: string)

  const Header: string := "Web search results:\n\n"
  const DefaultMaxChars: int := 1000
  const DefaultNumResults: nat := 5

  /** The block one hit contributes: a dash line with the title, then the link and the snippet indented by two. */
  function Render(item: SearchItem): (block: string)
    ensures |block| == |item.title| + |item.link| + |item.snippet| + 10
  {
    "- " + item.title + "\n  " + item.link + "\n  " + item.snippet + "\n\n"
  }

  /** The blocks of several hits, one after the other. */
  function RenderAll(items: seq<SearchItem>): string
  {
    if |items| == 0 then "" else RenderAll(items[..|items| - 1]) + Render(items[|items| - 1])
  }

  /**
   * How many hits, taken from the front, fit when `used` characters are
   * already written: counting stops at the first hit whose block would take
   * the total past `maxChars`, even if a later, shorter one would fit.
   */
  function IncludedCount(items: seq<SearchItem>, used: int, maxChars: int): (k: nat)
    ensures k <= |items|
  {
    if |items| == 0 || used + |Render(items[0])| > maxChars then 0
    else 1 + IncludedCount(items[1..], used + |Render(items[0])|, maxChars)
  }

  /** The summary before the final `strip()`: the header and the blocks of the hits that fit. */
  function SummaryText(items: seq<SearchItem>, maxChars: int): string
  {
    Header + RenderAll(items[..IncludedCount(items, |Header|, maxChars)])
  }

  /** `summarize_search_results`: grow the summary block by block while a running count stays within `maxChars`. */
  method SummarizeSearchResults(results: seq<SearchItem>, maxChars: int) returns (summary: string)
    ensures summary == Strip(SummaryText(results, maxChars))
  {
    var text := Header;
    var charCount := |text|;
    var i := 0;
    assert results[..0] == [];
    ghost var kept := IncludedCount(results, |Header|, maxChars);
    while i < |results|
      invariant 0 <= i <= |results|
      invariant charCount == |text|
      invariant text == Header + RenderAll(results[..i])
      invariant kept == i + IncludedCount(results[i..], charCount, maxChars)
    {
      var resultText := Render(results[i]);
      if charCount + |resultText| > maxChars {
        IncludedStop(results, i, charCount, maxChars);
        break;
      }
      IncludedStep(results, i, charCount, maxChars);
      RenderAllSnoc(results[..i], results[i]);
      assert results[..i] + [results[i]] == results[..i + 1];
      text := text + resultText;
      charCount := charCount + |resultText|;
      i := i + 1;
    }
    assert kept == i;
    summary := Strip(text);
  }

  /** A hit that fits is counted, and counting goes on after it. */
  lemma IncludedStep(items: seq<SearchItem>, i: nat, used: int, maxChars: int)
    requires i < |items| && used + |Render(items[i])| <= maxChars
    ensures IncludedCount(items[i..], used, maxChars) ==
      1 + IncludedCount(items[i + 1..], used + |Render(items[i])|, maxChars)
  {
    assert items[i..][0] == items[i];
    assert items[i..][1..] == items[i + 1..];
  }

  /** Counting stops at a hit that does not fit. */
  lemma IncludedStop(items: seq<SearchItem>, i: nat, used: int, maxChars: int)
    requires i < |items| && used + |Render(items[i])| > maxChars
    ensures IncludedCount(items[i..], used, maxChars) == 0
  {
    assert items[i..][0] == items[i];
  }

  /** `web_search_tool`: the first five hits of the search backend, summarised within 1000 characters; a raised error passes through. */
  method WebSearchTool(query: string, search: (string, nat) -> Result<seq<SearchItem>, string>) returns (r: Result<string, string>)
    ensures search(query, DefaultNumResults).Failure? ==> r == Failure(search(query, DefaultNumResults).error)
    ensures search(query, DefaultNumResults).Success? ==>
              r == Success(Strip(SummaryText(search(query, DefaultNumResults).value, DefaultMaxChars)))
  {
    var found := search(query, DefaultNumResults);
    if found.Failure? {
      return Failure(found.error);
    }
    var summary := SummarizeSearchResults(found.value, DefaultMaxChars);
    r := Success(summary);
  }

  /** Appending a hit appends its block. */
  lemma RenderAllSnoc(items: seq<SearchItem>, item: SearchItem)
    ensures RenderAll(items + [item]) == RenderAll(items) + Render(item)
  {
    assert (items + [item])[..|items|] == items;
  }

  /** Rendering a concatenation renders both parts in order. */
  lemma {:induction false} RenderAllConcat(xs: seq<SearchItem>, ys: seq<SearchItem>)
    ensures RenderAll(xs + ys) == RenderAll(xs) + RenderAll(ys)
    decreases |ys|
  {
    if |ys| == 0 {
      assert xs + ys == xs;
    } else {
      var last := ys[|ys| - 1];
      var init := ys[..|ys| - 1];
      assert ys == init + [last];
      assert xs + ys == (xs + init) + [last];
      RenderAllSnoc(xs + init, last);
      RenderAllSnoc(init, last);
      RenderAllConcat(xs, init);
    }
  }

  /** The same blocks read from the front: the first hit's block, then the others. */
  lemma {:induction false} RenderAllFront(items: seq<SearchItem>)
    requires |items| > 0
    ensures RenderAll(items) == Render(items[0]) + RenderAll(items[1..])
  {
    assert items == [items[0]] + items[1..];
    RenderAllConcat([items[0]], items[1..]);
    assert [items[0]][..0] == [];
  }

  /**
   * The hits kept are a prefix of the input, they fit within the budget
   * whenever the characters already written do, and the first hit left out
   * is one whose block does not fit.
   */
  lemma {:induction false} IncludedFits(items: seq<SearchItem>, used: int, maxChars: int)
    ensures used <= maxChars ==>
      used + |RenderAll(items[..IncludedCount(items, used, maxChars)])| <= maxChars
    ensures var k := IncludedCount(items, used, maxChars);
      k < |items| ==> used + |RenderAll(items[..k])| + |Render(items[k])| > maxChars
    decreases |items|
  {
    var k := IncludedCount(items, used, maxChars);
    if |items| == 0 || used + |Render(items[0])| > maxChars {
      assert k == 0 && items[..0] == [];
    } else {
      var used' := used + |Render(items[0])|;
      IncludedFits(items[1..], used', maxChars);
      var k' := IncludedCount(items[1..], used', maxChars);
      assert k == 1 + k';
      assert items[..k] == [items[0]] + items[1..][..k'];
      RenderAllFront(items[..k]);
      assert items[..k][1..] == items[1..][..k'];
      if k < |items| {
        assert items[k] == items[1..][k'];
      }
    }
  }

  /** Whenever the header itself fits, the summary stays within `maxChars` characters (the final strip only shortens it). */
  lemma SummaryWithinBudget(items: seq<SearchItem>, maxChars: int)
    requires |Header| <= maxChars
    ensures |SummaryText(items, maxChars)| <= maxChars
    ensures |Strip(SummaryText(items, maxChars))| <= maxChars
  {
    IncludedFits(items, |Header|, maxChars);
  }

  /**
   * The summary lists hits from the front of the input in their order and
   * stops at the first one that does not fit: a later, shorter hit is never
   * included in its place.
   */
  lemma SummaryStopsAtFirstMisfit(items: seq<SearchItem>, maxChars: int)
    ensures var k := IncludedCount(items, |Header|, maxChars);
      SummaryText(items, maxChars) == Header + RenderAll(items[..k])
      && (k < |items| ==> |Header| + |RenderAll(items[..k])| + |Render(items[k])| > maxChars)
  {
    IncludedFits(items, |Header|, maxChars);
  }

  /** Because the summary starts with a visible character, stripping removes trailing blank characters only. */
  lemma StripOnlyTrailing(items: seq<SearchItem>, maxChars: int)
    ensures var s := Strip(SummaryText(items, maxChars));
      s == SummaryText(items, maxChars)[..|s|] && AllSpace(SummaryText(items, maxChars)[|s|..])
  {
    var t := SummaryText(items, maxChars);
    assert t[0] == 'W';
    StripKeepsStart(t);
  }

  /** With no hits (or none that fits) the summary is the bare header line. */
  lemma NoResultsSummary(items: seq<SearchItem>, maxChars: int)
    requires IncludedCount(items, |Header|, maxChars) == 0
    ensures Strip(SummaryText(items, maxChars)) == "Web search results:"
  {
    assert items[..0] == [];
    assert SummaryText(items, maxChars) == Header;
    assert !IsSpace('W');
    var t := Header;
    assert LStrip(t) == t;
    assert RStrip(t) == "Web search results:" by {
      assert IsSpace(t[|t| - 1]) && t[..|t| - 1] == "Web search results:\n";
      assert IsSpace(t[|t| - 2]) && t[..|t| - 2] == "Web search results:";
      assert !IsSpace(t[|t| - 3]);
    }
  }
}
