/** The "Latest Research" listing: after PubMed's XML has been turned into
    dictionaries, each article gives a heading made of its title and a
    link to its PubMed page. */
module Research {
  import opened Wrappers
  import opened XmlLists

  /** An article's `MedlineCitation.Article.ArticleTitle` and
      `MedlineCitation.PMID.#text`; None when any key on the path is absent. */
  datatype Article = Article(title: Option<string>, pmid: Option<string>)

  /** The `#### [title](link)` line rendered for one article. */
  datatype ArticleHeading = ArticleHeading(title: string, link: string)

  const PubMedPrefix := "https://pubmed.ncbi.nlm.nih.gov/"
  const NoTitle := "No Title"

  /** The PubMed page of an article. The link is built even for an empty PMID. */
  function ArticleLink(pmid: string): (link: string)
    ensures PmidOfLink(link) == Some(pmid)
  {
    assert (PubMedPrefix + pmid + "/")[..|PubMedPrefix|] == PubMedPrefix;
    assert (PubMedPrefix + pmid + "/")[|PubMedPrefix|..|PubMedPrefix| + |pmid|] == pmid;
    PubMedPrefix + pmid + "/"
  }

  /** Reads the PMID back out of a PubMed link; None for anything that is
      not one. */
  function PmidOfLink(link: string): Option<string> {
    if |link| > |PubMedPrefix| && link[..|PubMedPrefix|] == PubMedPrefix && link[|link| - 1] == '/'
    then Some(link[|PubMedPrefix|..|link| - 1])
    else None
  }

  /** The heading of one article, with "No Title" and an empty PMID as defaults. */
  function Heading(a: Article): (h: ArticleHeading)
    ensures h.title == NoTitle <==> a.title.None? || a.title.value == NoTitle
    ensures a.title.Some? ==> h.title == a.title.value
    ensures PmidOfLink(h.link) == Some(GetOr(a.pmid, ""))
  {
    ArticleHeading(GetOr(a.title, NoTitle), ArticleLink(GetOr(a.pmid, "")))
  }

  /** The headings rendered for `PubmedArticleSet.PubmedArticle`, one per
      article, in order; a single article is listed like a list of one. */
  function Headings(articles: Children<Article>): (hs: seq<ArticleHeading>)
    ensures |hs| == |AsList(articles)|
    ensures forall i :: 0 <= i < |hs| ==> hs[i] == Heading(AsList(articles)[i])
    ensures articles.One? ==> hs == [Heading(articles.item)]
  {
    var list := AsList(articles);
    seq(|list|, i requires 0 <= i < |list| => Heading(list[i]))
  }

  /** A reply with a single article, which xmltodict gives as a dict, is
      listed exactly like a list holding that one article. */
  lemma LoneArticleIsListOfOne(a: Article)
    ensures Headings(One(a)) == Headings(Many([a]))
  {
  }
}
