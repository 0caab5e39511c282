/**
 * `detect_website_type` (backend/seo_analyzer.py): the three kinds of site
 * the analyser distinguishes, and the keyword rules that choose between them.
 * The page is abstracted to its title text (absent when there is no <title>),
 * its host name and the length of its visible text.
 */
module Classifier {
  import opened Options
  import opened Text

  datatype WebsiteType = Content | Functional | Ecommerce

  /** The name the analyser stores under `websiteType`. */
  function TypeName(t: WebsiteType): (r: string)
    ensures r in {"content", "functional", "ecommerce"}
  {
    match t
    case Content => "content"
    case Functional => "functional"
    case Ecommerce => "ecommerce"
  }

  lemma TypeNamesDistinct(a: WebsiteType, b: WebsiteType)
    ensures TypeName(a) == TypeName(b) <==> a == b
  {
  }

  const FunctionalTitleWords: seq<string> :=
    ["search", "google", "bing", "yahoo", "login", "sign in", "register", "tool", "calculator"]
  const FunctionalDomainWords: seq<string> := ["google", "bing", "yahoo"]
  const EcommerceTitleWords: seq<string> := ["shop", "store", "buy", "cart", "checkout", "product", "price", "sale"]
  const EcommerceDomainWords: seq<string> := ["shop", "store", "mall"]
  const ContentTitleWords: seq<string> := ["blog", "news", "article", "about", "company", "home", "welcome"]

  /** `any(keyword in text for keyword in words)` */
  predicate AnyIn(words: seq<string>, text: string)
  {
    exists i :: 0 <= i < |words| && Contains(text, words[i])
  }

  /** AnyIn holds exactly when some listed word occurs somewhere in the text. */
  lemma AnyInMeansOccurs(words: seq<string>, text: string)
    ensures AnyIn(words, text) <==> exists i :: 0 <= i < |words| && OccursIn(words[i], text)
  {
    forall i | 0 <= i < |words| ensures Contains(text, words[i]) <==> OccursIn(words[i], text) {
      ContainsIffOccurs(text, words[i]);
    }
  }

  /** The lower-cased title text, or "" when the page has no title. */
  function TitleText(title: Option<string>): string
  {
    match title
    case None => ""
    case Some(t) => Lower(t)
  }

  predicate FunctionalSignal(title: Option<string>, host: string)
  {
    AnyIn(FunctionalTitleWords, TitleText(title)) || AnyIn(FunctionalDomainWords, Lower(host))
  }

  predicate EcommerceSignal(title: Option<string>, host: string)
  {
    AnyIn(EcommerceTitleWords, TitleText(title)) || AnyIn(EcommerceDomainWords, Lower(host))
  }

  predicate ContentSignal(title: Option<string>)
  {
    AnyIn(ContentTitleWords, TitleText(title))
  }

  /**
   * The site type: functional keywords win over e-commerce ones, which win
   * over content ones; without any keyword a page of more than 1000
   * characters is content, one of fewer than 200 is functional, and anything
   * between is content.
   */
  function DetectWebsiteType(host: string, title: Option<string>, textLength: nat): (r: WebsiteType)
    ensures r == Functional <==>
              FunctionalSignal(title, host)
              || (!EcommerceSignal(title, host) && !ContentSignal(title) && textLength < 200)
    ensures r == Ecommerce <==> !FunctionalSignal(title, host) && EcommerceSignal(title, host)
    ensures r == Content <==>
              !FunctionalSignal(title, host) && !EcommerceSignal(title, host)
              && (ContentSignal(title) || textLength >= 200)
  {
    if FunctionalSignal(title, host) then Functional
    else if EcommerceSignal(title, host) then Ecommerce
    else if ContentSignal(title) then Content
    else if textLength > 1000 then Content
    else if textLength < 200 then Functional
    else Content
  }

  /** A keyword in the title or host decides the type whatever the page length. */
  lemma KeywordsOverrideLength(host: string, title: Option<string>, n: nat, m: nat)
    requires FunctionalSignal(title, host) || EcommerceSignal(title, host) || ContentSignal(title)
    ensures DetectWebsiteType(host, title, n) == DetectWebsiteType(host, title, m)
  {
  }

  /** A page without any title, on a host without a keyword, is classified by its length alone. */
  lemma UntitledPageByLength(host: string, n: nat)
    requires !AnyIn(FunctionalDomainWords, Lower(host)) && !AnyIn(EcommerceDomainWords, Lower(host))
    ensures DetectWebsiteType(host, None, n) == if n < 200 then Functional else Content
  {
    assert TitleText(None) == "";
    assert !AnyIn(FunctionalTitleWords, "") by {
      forall i | 0 <= i < |FunctionalTitleWords| ensures !Contains("", FunctionalTitleWords[i]) {
        assert |FunctionalTitleWords[i]| > 0;
      }
    }
    assert !AnyIn(EcommerceTitleWords, "") by {
      forall i | 0 <= i < |EcommerceTitleWords| ensures !Contains("", EcommerceTitleWords[i]) {
        assert |EcommerceTitleWords[i]| > 0;
      }
    }
    assert !AnyIn(ContentTitleWords, "") by {
      forall i | 0 <= i < |ContentTitleWords| ensures !Contains("", ContentTitleWords[i]) {
        assert |ContentTitleWords[i]| > 0;
      }
    }
  }

  /** Letter case in the title or host does not change the classification. */
  lemma CaseInsensitive(host: string, title: string, n: nat)
    ensures DetectWebsiteType(Lower(host), Some(Lower(title)), n) == DetectWebsiteType(host, Some(title), n)
  {
    LowerIdempotent(host);
    LowerIdempotent(title);
  }

  lemma LowerIdempotent(s: string)
    ensures Lower(Lower(s)) == Lower(s)
  {
  }
}
