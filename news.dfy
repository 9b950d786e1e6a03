/**
 * The headline digest of `modules/perception/news.rs`: the RSS text is cut
 * at every "<item>", the title of each of the first 15 items is extracted
 * and cleaned, and the nonempty titles are numbered into a list for the
 * prompt.  Fetching the feed is outside the model; the digest starts from
 * the response text ("" when every attempt failed).
 */
module News {
  import opened Base
  import opened Text

  const ItemTag: string := "<item>"
  const TitleOpen: string := "<title>"
  const TitleClose: string := "</title>"
  const CdataOpen: string := "<![CDATA["
  const CdataClose: string := "]]>"

  /** At most this many items are examined. */
  const MaxItems: nat := 15

  const NoNews: string := "No news available (Network Error)"
  const NoHeadlines: string := "No news headlines found."
  const DigestHeader: string := "Recent Headlines:\n"

  /** The segments after the first "<item>", at most 15 of them, in feed order. */
  function Items(content: string): (r: seq<string>)
    ensures |r| <= MaxItems
    ensures |r| == if |Split(content, ItemTag)| - 1 <= MaxItems then |Split(content, ItemTag)| - 1 else MaxItems
    ensures forall i :: 0 <= i < |r| ==> r[i] == Split(content, ItemTag)[i + 1]
  {
    var parts := Split(content, ItemTag);
    var rest := parts[1..];
    if |rest| <= MaxItems then rest else rest[..MaxItems]
  }

  /** A feed without "<item>" has no items; one with it has at least one. */
  lemma ItemsEmptyIff(content: string)
    ensures Items(content) == [] <==> Find(content, ItemTag).None?
  {
    if Find(content, ItemTag).Some? {
      var i := Find(content, ItemTag).value;
      assert Split(content, ItemTag) == [content[..i]] + Split(content[i + |ItemTag|..], ItemTag);
    }
  }

  /** The outcome of the title slice as the code writes it. */
  datatype TitleSlice = NoTitle | Title(text: string) | SlicePanic

  /**
   * The title as written: the first "<title>" and the first "</title>" of
   * the segment, sliced from the end of the one to the start of the other;
   * the slice panics when the closing tag comes first.
   */
  function TitleAsWritten(part: string): TitleSlice {
    match Find(part, TitleOpen)
    case None => NoTitle
    case Some(start) =>
      match Find(part, TitleClose)
      case None => NoTitle
      case Some(end) => if start + |TitleOpen| <= end then Title(part[start + |TitleOpen|..end]) else SlicePanic
  }

  /** A segment that closes a title before it opens one makes the slice panic. */
  lemma TitleAsWrittenPanics()
    ensures TitleAsWritten("</title><title>x") == SlicePanic
  {
    var part := "</title><title>x";
    assert OccursAt(part, TitleClose, 0);
    assert OccursAt(part, TitleOpen, 8);
    forall j: nat | j < 8 ensures !OccursAt(part, TitleOpen, j) {
      assert part[j..j + 7][0] == part[j];
      assert part[j..j + 7][1] == part[j + 1];
    }
  }

  /**
   * The slice panics exactly when the first "</title>" stands before the
   * first "<title>": a closing tag cannot start inside the opening tag.
   */
  lemma TitleAsWrittenPanicIff(part: string)
    ensures TitleAsWritten(part) == SlicePanic <==>
      Find(part, TitleOpen).Some? && Find(part, TitleClose).Some?
      && Find(part, TitleClose).value < Find(part, TitleOpen).value
  {
    if Find(part, TitleOpen).Some? && Find(part, TitleClose).Some? {
      var start := Find(part, TitleOpen).value;
      var end := Find(part, TitleClose).value;
      assert forall j :: start <= j < start + 7 ==> part[j] == part[start..start + 7][j - start];
      assert part[start] == '<';
      assert forall j :: start < j < start + 7 ==> part[j] != '<';
      assert part[end..end + 8][0] == part[end] && part[end..end + 8][1] == part[end + 1];
      assert part[end] == '<' && part[end + 1] == '/';
      assert part[start + 1] == 't';
      if start <= end < start + |TitleOpen| {
        assert false;
      }
    }
  }

  /**
   * The title as evidently intended: the text between the first "<title>"
   * and the first "</title>" after it; a segment without both has none.
   */
  function TitleOf(part: string): (r: Option<string>)
    ensures r.Some? ==> exists start: nat, end: nat ::
      OccursAt(part, TitleOpen, start) && OccursAt(part, TitleClose, end)
      && start + |TitleOpen| <= end && r.value == part[start + |TitleOpen|..end]
  {
    match Find(part, TitleOpen)
    case None => None
    case Some(start) =>
      match FindFrom(part, TitleClose, start + |TitleOpen|)
      case None => None
      case Some(end) => Some(part[start + |TitleOpen|..end])
  }

  /** Wherever the written slice does not panic, the intended title is the same. */
  lemma TitleOfAgrees(part: string)
    requires TitleAsWritten(part) != SlicePanic
    ensures TitleAsWritten(part).Title? ==> TitleOf(part) == Some(TitleAsWritten(part).text)
    ensures TitleAsWritten(part).NoTitle? ==> TitleOf(part).None?
  {
    match Find(part, TitleOpen)
    case None =>
    case Some(start) =>
      var from := start + |TitleOpen|;
      match Find(part, TitleClose)
      case None =>
        assert FindFrom(part, TitleClose, from).None?;
      case Some(end) =>
        assert from <= end;
        assert FindFrom(part, TitleClose, from) == Some(end) by {
          FindFromFirst(part, TitleClose, from, end);
        }
  }

  /** The first match at or after `from` is a match that no earlier one precedes. */
  lemma FindFromFirst(s: string, t: string, from: nat, i: nat)
    requires from <= i && OccursAt(s, t, i)
    requires forall j :: from <= j < i ==> !OccursAt(s, t, j)
    ensures FindFrom(s, t, from) == Some(i)
  {
    var r := FindFrom(s, t, from);
    assert r.Some?;
    assert !(r.value < i);
    assert !(r.value > i);
  }

  /** A title with the CDATA markers removed and surrounding whitespace trimmed. */
  function CleanTitle(title: string): (r: string)
    ensures |r| > 0 ==> !IsWhitespace(r[0]) && !IsWhitespace(r[|r| - 1])
  {
    Trim(ReplaceAll(ReplaceAll(title, CdataOpen, ""), CdataClose, ""))
  }

  /** The headline a segment contributes, if any: its cleaned title when nonempty. */
  function HeadlineOf(part: string): (r: Option<string>)
    ensures r.Some? ==> |r.value| > 0
  {
    match TitleOf(part)
    case None => None
    case Some(title) => if CleanTitle(title) == "" then None else Some(CleanTitle(title))
  }

  /** The headlines of a list of segments, in order. */
  function HeadlinesOf(items: seq<string>): (r: seq<string>)
    ensures |r| <= |items|
    ensures forall i :: 0 <= i < |r| ==> |r[i]| > 0
  {
    if |items| == 0 then []
    else
      var before := HeadlinesOf(items[..|items| - 1]);
      match HeadlineOf(items[|items| - 1])
      case None => before
      case Some(h) => before + [h]
  }

  /** The line "n. headline\n". */
  function NumberedLine(n: nat, headline: string): string {
    NatToString(n) + ". " + headline + "\n"
  }

  /** The numbered lines of a list of headlines, counted from 1. */
  function NumberedLines(headlines: seq<string>): string {
    if |headlines| == 0 then ""
    else NumberedLines(headlines[..|headlines| - 1]) + NumberedLine(|headlines|, headlines[|headlines| - 1])
  }

  /** The first numbered line is the first headline, numbered 1. */
  lemma {:induction false} NumberedLinesStart(headlines: seq<string>)
    requires |headlines| > 0
    ensures NumberedLine(1, headlines[0]) <= NumberedLines(headlines)
  {
    if |headlines| == 1 {
      assert NumberedLines(headlines) == "" + NumberedLine(1, headlines[0]);
    } else {
      var init := headlines[..|headlines| - 1];
      NumberedLinesStart(init);
      assert init[0] == headlines[0];
    }
  }

  /** The digest of the headlines found: the no-headline message, or the header and the numbered list. */
  function Render(headlines: seq<string>): string {
    if |headlines| == 0 then NoHeadlines else DigestHeader + NumberedLines(headlines)
  }

  /** The digest text, as it comes from the response text. */
  function Digest(content: string): (r: string)
    ensures content == "" ==> r == NoNews
  {
    if content == "" then NoNews else Render(HeadlinesOf(Items(content)))
  }

  /** A rendered list opens with the header and the first headline as item 1. */
  lemma RenderShape(headlines: seq<string>)
    ensures |headlines| == 0 ==> Render(headlines) == NoHeadlines
    ensures |headlines| > 0 ==> DigestHeader + NumberedLine(1, headlines[0]) <= Render(headlines)
  {
    if |headlines| > 0 {
      NumberedLinesStart(headlines);
      var first := NumberedLine(1, headlines[0]);
      var lines := NumberedLines(headlines);
      assert lines == first + lines[|first|..];
      assert DigestHeader + lines == (DigestHeader + first) + lines[|first|..];
    }
  }

  /** The headlines of the segments `parts.iter().skip(1).take(15)` visits. */
  method ExtractHeadlines(content: string) returns (headlines: seq<string>)
    ensures headlines == HeadlinesOf(Items(content))
    ensures |headlines| <= MaxItems
  {
    headlines := CollectHeadlines(Items(content));
  }

  /** The loop body over the examined segments: one headline per segment with a nonempty title. */
  method CollectHeadlines(items: seq<string>) returns (headlines: seq<string>)
    ensures headlines == HeadlinesOf(items)
  {
    headlines := [];
    for i := 0 to |items|
      invariant headlines == HeadlinesOf(items[..i])
    {
      assert items[..i + 1][..i] == items[..i];
      var headline := ExtractHeadline(items[i]);
      if headline.Some? {
        headlines := headlines + [headline.value];
      }
    }
    assert items[..|items|] == items;
  }

  /** The loop body for one segment: the title between the tags, cleaned, when it is not empty. */
  method ExtractHeadline(part: string) returns (headline: Option<string>)
    ensures headline == HeadlineOf(part)
    ensures headline.Some? ==> |headline.value| > 0
  {
    headline := None;
    match Find(part, TitleOpen) {
      case Some(start) =>
        match FindFrom(part, TitleClose, start + |TitleOpen|) {
          case Some(end) =>
            var cleanTitle := CleanTitle(part[start + |TitleOpen|..end]);
            if cleanTitle != "" {
              headline := Some(cleanTitle);
            }
          case None =>
        }
      case None =>
    }
  }

  /** `fetch_raw_headlines` after the fetch: the three outcomes of the digest. */
  method FetchRawHeadlines(content: string) returns (digest: string)
    ensures digest == Digest(content)
  {
    if content == "" {
      return NoNews;
    }
    var headlines := ExtractHeadlines(content);
    digest := RenderHeadlines(headlines);
  }

  /** The numbering loop: one "i. headline" line per headline after the header. */
  method RenderHeadlines(headlines: seq<string>) returns (digest: string)
    ensures digest == Render(headlines)
  {
    if |headlines| == 0 {
      return NoHeadlines;
    }
    digest := DigestHeader;
    for i := 0 to |headlines|
      invariant digest == DigestHeader + NumberedLines(headlines[..i])
    {
      assert headlines[..i + 1][..i] == headlines[..i];
      var line := NatToString(i + 1) + ". " + headlines[i] + "\n";
      assert NumberedLines(headlines[..i + 1]) == NumberedLines(headlines[..i]) + line;
      digest := digest + line;
    }
    assert headlines[..|headlines|] == headlines;
  }
}
