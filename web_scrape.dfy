/**
 * The text and link helpers of the web scraper. A page is the list of its
 * elements in document order, each with its tag, its text (descendants
 * included) and its `href` attribute when it has one; fetching the page and
 * `urljoin` are left to the caller as functions.
 */
module WebScrape {
  import opened Wrappers
  import opened Strings

  // ---------------------------------------------------------------------------
  // get_driver

  datatype Browser = Chrome | Firefox

  /** The name under which each browser is looked up. */
  function BrowserName(b: Browser): string
  {
    if b.Chrome? then "chrome" else "firefox"
  }

  /** The driver the scraper would start: the browser and its command-line arguments. */
  datatype DriverConfig = DriverConfig(browser: Browser, arguments: seq<string>)

  const DriverArguments: seq<string> := ["--headless", "--enable-javascript", "--no-sandbox", "--disable-dev-shm-usage"]

  /**
   * `get_driver(browser)`: only the two names in the driver table are accepted;
   * any other name raises with the message "<name> is not a supported browser".
   */
  function GetDriver(browser: string): (r: Result<DriverConfig, string>)
    ensures r.Success? <==> browser == "chrome" || browser == "firefox"
    ensures r.Success? ==> BrowserName(r.value.browser) == browser && r.value.arguments == DriverArguments
    ensures r.Failure? ==> r.error == browser + " is not a supported browser"
    ensures r.Failure? ==> StartsWith(r.error, browser)
  {
    var drivers := map["chrome" := Chrome, "firefox" := Firefox];
    if browser !in drivers then Failure(browser + " is not a supported browser")
    else Success(DriverConfig(drivers[browser], DriverArguments))
  }

  /** Every browser is reachable by its name, and the name picks that very browser. */
  lemma GetDriverByName(b: Browser)
    ensures GetDriver(BrowserName(b)) == Success(DriverConfig(b, DriverArguments))
  {
  }

  // ---------------------------------------------------------------------------
  // get_text

  datatype Element = Element(tag: string, text: string, href: Option<string>)

  predicate IsTextTag(tag: string)
  {
    tag in ["h1", "h2", "h3", "h4", "h5", "p"]
  }

  /** The text the page yields, one block per heading or paragraph element. */
  function PageText(es: seq<Element>): string
  {
    if |es| == 0 then ""
    else
      var e := es[|es| - 1];
      PageText(es[..|es| - 1]) + (if IsTextTag(e.tag) then e.text + "\n\n" else "")
  }

  /** The texts of the heading and paragraph elements, in document order. */
  function TextBlocks(es: seq<Element>): seq<string>
  {
    if |es| == 0 then []
    else
      var e := es[|es| - 1];
      TextBlocks(es[..|es| - 1]) + (if IsTextTag(e.tag) then [e.text] else [])
  }

  method GetText(soup: seq<Element>) returns (text: string)
    ensures text == PageText(soup)
  {
    text := "";
    for i := 0 to |soup|
      invariant text == PageText(soup[..i])
    {
      assert soup[..i + 1][..i] == soup[..i];
      var element := soup[i];
      if IsTextTag(element.tag) {
        text := text + element.text + "\n\n";
      }
    }
    assert soup[..|soup|] == soup;
  }

  /**
   * The page text is the blocks joined by blank lines with one more blank line
   * after the last, and nothing at all when there is no block.
   */
  lemma {:induction false} PageTextBlocks(es: seq<Element>)
    ensures var blocks := TextBlocks(es);
      PageText(es) == if |blocks| == 0 then "" else Join("\n\n", blocks) + "\n\n"
  {
    if |es| > 0 {
      var init := es[..|es| - 1];
      var e := es[|es| - 1];
      PageTextBlocks(init);
      var blocks := TextBlocks(init);
      if IsTextTag(e.tag) {
        assert TextBlocks(es) == blocks + [e.text];
        if |blocks| > 0 {
          JoinSnoc("\n\n", blocks, e.text);
        } else {
          assert blocks + [e.text] == [e.text];
        }
      } else {
        assert TextBlocks(es) == blocks;
      }
    }
  }

  /** The text is empty exactly when no element is a heading or a paragraph; otherwise it ends in a blank line. */
  lemma {:induction false} PageTextShape(es: seq<Element>)
    ensures PageText(es) == "" <==> forall i :: 0 <= i < |es| ==> !IsTextTag(es[i].tag)
    ensures (exists i :: 0 <= i < |es| && IsTextTag(es[i].tag)) ==> EndsWith(PageText(es), "\n\n")
  {
    if |es| > 0 {
      var init := es[..|es| - 1];
      PageTextShape(init);
      assert forall i :: 0 <= i < |init| ==> init[i] == es[i];
      if !IsTextTag(es[|es| - 1].tag) {
        assert (exists i :: 0 <= i < |es| && IsTextTag(es[i].tag)) ==> exists i :: 0 <= i < |init| && IsTextTag(init[i].tag);
      }
    }
  }

  /** `scrape(url)`: the text of the page `soup` fetches for the address. */
  method Scrape(url: string, soup: string -> seq<Element>) returns (text: string)
    ensures text == PageText(soup(url))
  {
    text := GetText(soup(url));
  }

  // ---------------------------------------------------------------------------
  // extract_hyperlinks, format_hyperlinks, scrape_links

  /** An anchor with an `href` whose stripped text and joined address are both non-empty. */
  predicate KeepsLink(e: Element, url: string, urljoin: (string, string) -> string)
  {
    e.tag == "a" && e.href.Some? && Strip(e.text) != "" && urljoin(url, e.href.value) != ""
  }

  function Hyperlinks(es: seq<Element>, url: string, urljoin: (string, string) -> string): seq<(string, string)>
  {
    if |es| == 0 then []
    else
      var e := es[|es| - 1];
      Hyperlinks(es[..|es| - 1], url, urljoin)
        + (if KeepsLink(e, url, urljoin) then [(Strip(e.text), urljoin(url, e.href.value))] else [])
  }

  method ExtractHyperlinks(soup: seq<Element>, url: string, urljoin: (string, string) -> string)
    returns (hyperlinks: seq<(string, string)>)
    ensures hyperlinks == Hyperlinks(soup, url, urljoin)
  {
    hyperlinks := [];
    for i := 0 to |soup|
      invariant hyperlinks == Hyperlinks(soup[..i], url, urljoin)
    {
      assert soup[..i + 1][..i] == soup[..i];
      var link := soup[i];
      if link.tag == "a" && link.href.Some? {
        var linkText := Strip(link.text);
        var linkUrl := urljoin(url, link.href.value);
        if linkText != "" && linkUrl != "" {
          hyperlinks := hyperlinks + [(linkText, linkUrl)];
        }
      }
    }
    assert soup[..|soup|] == soup;
  }

  /** Every kept link has a non-empty text without surrounding white space and a non-empty address. */
  lemma {:induction false} HyperlinksWellFormed(es: seq<Element>, url: string, urljoin: (string, string) -> string)
    ensures forall k :: 0 <= k < |Hyperlinks(es, url, urljoin)| ==>
      var link := Hyperlinks(es, url, urljoin)[k];
      link.0 != "" && Strip(link.0) == link.0 && link.1 != ""
  {
    if |es| > 0 {
      var e := es[|es| - 1];
      HyperlinksWellFormed(es[..|es| - 1], url, urljoin);
      StripIdempotent(e.text);
    }
  }

  /** Links are kept in document order: the links of two parts of a page are those of the whole. */
  lemma {:induction false} HyperlinksAppend(a: seq<Element>, b: seq<Element>, url: string,
                                            urljoin: (string, string) -> string)
    ensures Hyperlinks(a + b, url, urljoin) == Hyperlinks(a, url, urljoin) + Hyperlinks(b, url, urljoin)
  {
    if |b| == 0 {
      assert a + b == a;
    } else {
      var init := b[..|b| - 1];
      HyperlinksAppend(a, init, url, urljoin);
      assert (a + b)[..|a + b| - 1] == a + init;
      assert (a + b)[|a + b| - 1] == b[|b| - 1];
    }
  }

  /** One displayed link: its text, then its address in parentheses. */
  function FormatLink(link: (string, string)): string
  {
    link.0 + " (" + link.1 + ")"
  }

  function FormatHyperlinks(links: seq<(string, string)>): (r: seq<string>)
    ensures |r| == |links|
    ensures forall k :: 0 <= k < |links| ==> r[k] == FormatLink(links[k])
  {
    if |links| == 0 then [] else [FormatLink(links[0])] + FormatHyperlinks(links[1..])
  }

  /** The index of the last `c` in `s`, `-1` when there is none. */
  function LastIndexOf(s: string, c: char): (i: int)
    ensures -1 <= i < |s|
    ensures i >= 0 ==> s[i] == c
    ensures forall j :: i < j < |s| ==> s[j] != c
  {
    if |s| == 0 then -1 else if s[|s| - 1] == c then |s| - 1 else LastIndexOf(s[..|s| - 1], c)
  }

  /** Reads a displayed link back, splitting at its last opening parenthesis. */
  function ParseLink(s: string): Option<(string, string)>
  {
    var k := LastIndexOf(s, '(');
    if k >= 1 && s[k - 1] == ' ' && s[|s| - 1] == ')' then Some((s[..k - 1], s[k + 1..|s| - 1]))
    else None
  }

  /** A displayed link reads back to its text and address when the address holds no opening parenthesis. */
  lemma FormatLinkRoundTrip(link: (string, string))
    requires '(' !in link.1
    ensures ParseLink(FormatLink(link)) == Some(link)
  {
    var s := FormatLink(link);
    var k := |link.0| + 1;
    assert s[k] == '(' && s[k - 1] == ' ';
    assert forall j :: k < j < |s| - 1 ==> s[j] == link.1[j - k - 1];
    var i := LastIndexOf(s, '(');
    assert i == k;
    assert s[..k - 1] == link.0;
    assert s[k + 1..|s| - 1] == link.1;
  }

  /** `scrape_links(url)`: the displayed links of the page `soup` fetches for the address. */
  method ScrapeLinks(url: string, soup: string -> seq<Element>, urljoin: (string, string) -> string)
    returns (links: seq<string>)
    ensures links == FormatHyperlinks(Hyperlinks(soup(url), url, urljoin))
  {
    var hyperlinks := ExtractHyperlinks(soup(url), url, urljoin);
    links := FormatHyperlinks(hyperlinks);
  }
}
