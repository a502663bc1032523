/**
 * Text assembly of the PDF extractor. The parsed document is given as its
 * pages, each page the sequence of the `str` fields of its text items; the
 * extractor joins a page's items with one space and appends the page followed
 * by a blank line.
 */
module PdfExtract {

  /** `items.join(sep)`: the items in order with `sep` between neighbours. */
  function Join(items: seq<string>, sep: string): string
  {
    if |items| == 0 then ""
    else if |items| == 1 then items[0]
    else items[0] + sep + Join(items[1..], sep)
  }

  /** Sum of the lengths of some strings. */
  function TotalLength(items: seq<string>): nat
  {
    if |items| == 0 then 0 else |items[0]| + TotalLength(items[1..])
  }

  const PageBreak := "\n\n"

  /** What one page adds to the text. */
  function PageText(items: seq<string>): string
  {
    Join(items, " ") + PageBreak
  }

  /** The text of pages 1..n, built page by page. */
  function PdfText(pages: seq<seq<string>>): string
  {
    if |pages| == 0 then "" else PdfText(pages[..|pages| - 1]) + PageText(pages[|pages| - 1])
  }

  /** Sum over the pages of the length of the joined items. */
  function JoinedLength(pages: seq<seq<string>>): nat
  {
    if |pages| == 0 then 0 else JoinedLength(pages[..|pages| - 1]) + |Join(pages[|pages| - 1], " ")|
  }

  /** The loop of the extractor: `fullText` only ever grows, by one page at a time. */
  method ExtractPdfText(pages: seq<seq<string>>) returns (fullText: string)
    ensures fullText == PdfText(pages)
  {
    fullText := "";
    var i := 1;
    while i <= |pages|
      invariant 1 <= i <= |pages| + 1
      invariant fullText == PdfText(pages[..i - 1])
    {
      var strings := pages[i - 1];
      assert pages[..i][..i - 1] == pages[..i - 1];
      fullText := fullText + Join(strings, " ") + PageBreak;
      i := i + 1;
    }
    assert pages[..|pages|] == pages;
  }

  /** A document with no pages yields the empty string. */
  lemma NoPagesNoText(pages: seq<seq<string>>)
    requires |pages| == 0
    ensures PdfText(pages) == ""
  {
  }

  /** Joining n items adds n - 1 separators to their total length. */
  lemma {:induction false} JoinLength(items: seq<string>, sep: string)
    ensures |Join(items, sep)| == TotalLength(items) + (if |items| == 0 then 0 else (|items| - 1) * |sep|)
  {
    if |items| > 1 {
      JoinLength(items[1..], sep);
      assert TotalLength(items) == |items[0]| + TotalLength(items[1..]);
    }
  }

  /** Pages are processed in order: the text of a concatenation is the concatenation of the texts. */
  lemma {:induction false} PdfTextAppend(front: seq<seq<string>>, back: seq<seq<string>>)
    ensures PdfText(front + back) == PdfText(front) + PdfText(back)
    decreases |back|
  {
    if |back| == 0 {
      assert front + back == front;
    } else {
      var all := front + back;
      assert all[..|all| - 1] == front + back[..|back| - 1];
      assert all[|all| - 1] == back[|back| - 1];
      PdfTextAppend(front, back[..|back| - 1]);
    }
  }

  /** The text of the first k pages is a prefix of the whole text. */
  lemma PdfTextPrefix(pages: seq<seq<string>>, k: nat)
    requires k <= |pages|
    ensures PdfText(pages[..k]) <= PdfText(pages)
    ensures PdfText(pages) == PdfText(pages[..k]) + PdfText(pages[k..])
  {
    assert pages[..k] + pages[k..] == pages;
    PdfTextAppend(pages[..k], pages[k..]);
  }

  /** The result is as long as the joined pages plus two characters per page. */
  lemma {:induction false} PdfTextLength(pages: seq<seq<string>>)
    ensures |PdfText(pages)| == JoinedLength(pages) + 2 * |pages|
  {
    if |pages| > 0 {
      PdfTextLength(pages[..|pages| - 1]);
    }
  }

  /** Every page ends with a blank line, so a non-empty document ends with one. */
  lemma EndsWithPageBreak(pages: seq<seq<string>>)
    requires |pages| > 0
    ensures |PdfText(pages)| >= 2 && PdfText(pages)[|PdfText(pages)| - 2..] == PageBreak
  {
    var t := PdfText(pages);
    var last := PageText(pages[|pages| - 1]);
    assert t == PdfText(pages[..|pages| - 1]) + last;
    assert t[|t| - 2..] == last[|last| - 2..];
  }

  /** One page: its items separated by single spaces, then the blank line. */
  lemma SinglePage(a: string, b: string, c: string)
    ensures PdfText([[a, b, c]]) == a + " " + b + " " + c + "\n\n"
  {
    var pages := [[a, b, c]];
    assert pages[..0] == [];
    assert [a, b, c][1..] == [b, c] && [b, c][1..] == [c];
    assert Join([c], " ") == c;
    assert Join([b, c], " ") == b + " " + c;
    assert Join([a, b, c], " ") == a + " " + (b + " " + c);
  }
}
