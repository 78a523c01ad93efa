/**
 * Which directives the prompt carries for a request. The wording of each
 * directive is prose and is not modelled; what is modelled is which one is
 * chosen, and from which fields of the request.
 */
module PromptDirectives {
  import opened Wrappers
  import opened Types
  import Catalog

  /** Use the named framework exactly, or let the model pick one inside the category. */
  datatype FrameworkDirective = UseFramework(id: string) | SelectWithin(category: Category)

  /** Ask for one or two recent, linked facts, or say nothing ("" in the prompt). */
  datatype SearchDirective = CiteRecentFacts | NoSearch

  /** The five generic instructions naming the audience, or the TOP-3 news digest. */
  datatype Instructions = StandardInstructions(audience: Audience) | TopThreeNews

  datatype Directives = Directives(
    framework: FrameworkDirective,
    search: SearchDirective,
    instructions: Instructions)

  /** The request names the news-digest framework. */
  predicate AsksForNewsDigest(request: PostRequest) {
    request.frameworkId == Some(Catalog.NEWS_FRAMEWORK_ID)
  }

  /**
   * The directive selection of `generateLinkedInPost`: the framework and
   * search directives are chosen by a conditional each, and the instructions
   * start generic and are replaced for the news-digest framework.
   */
  method ChooseDirectives(request: PostRequest) returns (d: Directives)
    ensures d.framework.UseFramework? <==> IsSet(request.frameworkId)
    ensures d.framework.UseFramework? ==> d.framework.id == request.frameworkId.value
    ensures d.framework.SelectWithin? ==> d.framework.category == request.category
    ensures d.search == CiteRecentFacts <==> request.includeNews
    ensures d.instructions == TopThreeNews <==> AsksForNewsDigest(request)
    ensures d.instructions.StandardInstructions? ==> d.instructions.audience == request.audience
  {
    var framework :=
      if IsSet(request.frameworkId) then UseFramework(request.frameworkId.value)
      else SelectWithin(request.category);
    var search := if request.includeNews then CiteRecentFacts else NoSearch;
    var specific := StandardInstructions(request.audience);
    if request.frameworkId == Some(Catalog.NEWS_FRAMEWORK_ID) {
      specific := TopThreeNews;
    }
    d := Directives(framework, search, specific);
  }

  /**
   * For a framework chosen from the catalogue, the news digest is asked for
   * exactly when that framework is the only one of the News category.
   */
  lemma NewsDigestOnlyFromNews(request: PostRequest, c: Category, i: nat)
    requires i < |Catalog.Frameworks(c)|
    requires request.frameworkId == Some(Catalog.Frameworks(c)[i].id)
    ensures AsksForNewsDigest(request) <==> c == News && i == 0
  {
    Catalog.Framework70OnlyInNews(c, i);
  }

  /** The news digest always comes with the exact-framework directive. */
  lemma NewsDigestUsesFramework(request: PostRequest)
    requires AsksForNewsDigest(request)
    ensures IsSet(request.frameworkId)
  {
    assert Catalog.NEWS_FRAMEWORK_ID[0] == 'F';
  }
}
