/**
 * The post-configuration form: seven fields edited one at a time, the
 * framework list of the chosen category, the help shown for the chosen
 * framework, and the request sent on submit.
 */
module InputForm {
  import opened Wrappers
  import opened Types
  import opened Text
  import Catalog
  import PromptDirectives

  /** `find` over a framework list by id: the first entry with that id, if any. */
  function FindFramework(frameworks: seq<Catalog.FrameworkDefinition>, id: string)
    : (r: Option<Catalog.FrameworkDefinition>)
    ensures r.None? <==> forall i :: 0 <= i < |frameworks| ==> frameworks[i].id != id
    ensures r.Some? ==> (exists i :: 0 <= i < |frameworks| && frameworks[i] == r.value
                           && r.value.id == id && forall j :: 0 <= j < i ==> frameworks[j].id != id)
    decreases |frameworks|
  {
    if frameworks == [] then None
    else if frameworks[0].id == id then Some(frameworks[0])
    else
      var r := FindFramework(frameworks[1..], id);
      if r.Some? then FirstMatchInTail(frameworks, id, r.value); r else r
  }

  /** A first match in the tail of a list whose head does not match is a first match of the list. */
  lemma FirstMatchInTail(frameworks: seq<Catalog.FrameworkDefinition>, id: string, f: Catalog.FrameworkDefinition)
    requires frameworks != [] && frameworks[0].id != id
    requires exists i :: (0 <= i < |frameworks[1..]| && frameworks[1..][i] == f
                          && f.id == id && forall j :: 0 <= j < i ==> frameworks[1..][j].id != id)
    ensures exists i :: (0 <= i < |frameworks| && frameworks[i] == f
                         && f.id == id && forall j :: 0 <= j < i ==> frameworks[j].id != id)
  {
    var i :| 0 <= i < |frameworks[1..]| && frameworks[1..][i] == f
      && f.id == id && forall j :: 0 <= j < i ==> frameworks[1..][j].id != id;
    assert frameworks[i + 1] == f;
    forall j | 0 <= j < i + 1
      ensures frameworks[j].id != id
    {
      if j > 0 {
        assert frameworks[j] == frameworks[1..][j - 1];
      }
    }
  }

  /** The tip shown under the chosen framework, when the tip table has a non-empty one. */
  function TipFor(selected: Option<Catalog.FrameworkDefinition>): (r: Option<string>)
    ensures r.Some? ==> selected.Some? && r.value != ""
    ensures r.Some? ==> (selected.value.id in Catalog.FRAMEWORK_PRO_TIPS
                         && r.value == Catalog.FRAMEWORK_PRO_TIPS[selected.value.id])
    ensures r.None? ==> (selected.None? || selected.value.id !in Catalog.FRAMEWORK_PRO_TIPS
                         || Catalog.FRAMEWORK_PRO_TIPS[selected.value.id] == "")
  {
    if selected.Some? && selected.value.id in Catalog.FRAMEWORK_PRO_TIPS
      && Catalog.FRAMEWORK_PRO_TIPS[selected.value.id] != ""
    then Some(Catalog.FRAMEWORK_PRO_TIPS[selected.value.id])
    else None
  }

  /** No framework has the empty id, so auto-select never matches one. */
  lemma NoFrameworkIdIsEmpty(c: Category)
    ensures forall i :: 0 <= i < |Catalog.Frameworks(c)| ==> Catalog.Frameworks(c)[i].id != ""
  {
    Catalog.FrameworksNumbered(c);
  }

  /** Every framework of a category has a non-empty tip. */
  lemma FrameworkHasTip(c: Category, f: Catalog.FrameworkDefinition)
    requires f in Catalog.Frameworks(c)
    ensures f.id in Catalog.FRAMEWORK_PRO_TIPS && Catalog.FRAMEWORK_PRO_TIPS[f.id] != ""
  {
    var i :| 0 <= i < |Catalog.Frameworks(c)| && Catalog.Frameworks(c)[i] == f;
    Catalog.EveryFrameworkHasTip(c, i);
  }

  /** A framework chosen from a category's list always gets its tip. */
  lemma SelectedHasTip(c: Category, selected: Option<Catalog.FrameworkDefinition>)
    requires selected.Some? ==> selected.value in Catalog.Frameworks(c)
    ensures TipFor(selected).Some? <==> selected.Some?
  {
    if selected.Some? {
      FrameworkHasTip(c, selected.value);
    }
  }

  class Form {
    var audience: Audience
    var category: Category
    var topic: string
    /** The chosen framework id; "" for the auto-select option. */
    var frameworkId: string
    var includeNews: bool
    var goal: PostGoal
    var tone: PostTone

    /** The initial values of the seven fields. */
    constructor()
      ensures audience == GalleryOwners && category == HarshTruths
      ensures topic == "" && frameworkId == "" && !includeNews
      ensures goal == Authority && tone == Analytical
      ensures Valid()
    {
      audience := GalleryOwners;
      category := HarshTruths;
      topic := "";
      frameworkId := "";
      includeNews := false;
      goal := Authority;
      tone := Analytical;
    }

    /** `id` is one of the options of the framework select. */
    predicate IsOption(id: string)
      reads this
    {
      id == "" || exists i :: 0 <= i < |Catalog.Frameworks(category)| && Catalog.Frameworks(category)[i].id == id
    }

    /** The chosen framework is auto-select or one of the current category. */
    predicate Valid()
      reads this
    {
      IsOption(frameworkId)
    }

    /** `currentFrameworks`: the category's list; never empty, so `|| []` never applies. */
    function CurrentFrameworks(): (r: seq<Catalog.FrameworkDefinition>)
      reads this
      ensures |r| >= 1
      ensures forall i :: 0 <= i < |r| ==> r[i].id == Catalog.FrameworkId(Catalog.FirstNumber(category) + i)
    {
      Catalog.FrameworksNumbered(category);
      Catalog.Frameworks(category)
    }

    /** `selectedFrameworkDef`: present exactly when the chosen id is a framework of the category. */
    function SelectedFramework(): (r: Option<Catalog.FrameworkDefinition>)
      reads this
      ensures r.Some? <==> frameworkId != "" && IsOption(frameworkId)
      ensures r.Some? ==> r.value.id == frameworkId && r.value in Catalog.Frameworks(category)
    {
      NoFrameworkIdIsEmpty(category);
      FindFramework(CurrentFrameworks(), frameworkId)
    }

    /** The pro tip: shown exactly when a framework is chosen, since every framework has one. */
    function ProTip(): (r: Option<string>)
      reads this
      ensures r.Some? <==> SelectedFramework().Some?
      ensures r.Some? ==> r.value != ""
    {
      SelectedHasTip(category, SelectedFramework());
      TipFor(SelectedFramework())
    }

    /** The request the form sends: every field as it is, the topic untrimmed. */
    function Request(): (r: PostRequest)
      reads this
      ensures r.topic == topic && r.category == category && r.frameworkId == Some(frameworkId)
      ensures r.audience == audience && r.includeNews == includeNews && r.goal == goal && r.tone == tone
    {
      PostRequest(audience, category, topic, Some(frameworkId), includeNews, goal, tone)
    }

    /** The submit button is disabled while loading or while the topic is blank. */
    predicate SubmitDisabled(isLoading: bool)
      reads this
    {
      isLoading || Trim(topic) == ""
    }

    /** `handleSubmit`: nothing for a blank topic, otherwise the request. */
    method Submit() returns (r: Option<PostRequest>)
      ensures r.None? <==> IsBlank(topic)
      ensures r.None? <==> SubmitDisabled(false)
      ensures r.Some? ==> r.value == Request()
    {
      if Trim(topic) == "" {
        return None;
      }
      r := Some(Request());
    }

    /** `handleCategoryChange`: a new category clears the chosen framework. */
    method ChangeCategory(c: Category)
      modifies this
      ensures category == c && frameworkId == ""
      ensures audience == old(audience) && topic == old(topic) && includeNews == old(includeNews)
      ensures goal == old(goal) && tone == old(tone)
      ensures Valid()
    {
      category := c;
      frameworkId := "";
    }

    /** A choice in the framework select; an option of the select keeps the form valid. */
    method SetFrameworkId(id: string)
      modifies this
      ensures frameworkId == id
      ensures audience == old(audience) && category == old(category) && topic == old(topic)
      ensures includeNews == old(includeNews) && goal == old(goal) && tone == old(tone)
      ensures old(IsOption(id)) ==> Valid()
    {
      frameworkId := id;
    }

    method SetAudience(a: Audience)
      modifies this
      ensures audience == a
      ensures category == old(category) && topic == old(topic) && frameworkId == old(frameworkId)
      ensures includeNews == old(includeNews) && goal == old(goal) && tone == old(tone)
      ensures old(Valid()) ==> Valid()
    {
      audience := a;
    }

    method SetTopic(t: string)
      modifies this
      ensures topic == t
      ensures audience == old(audience) && category == old(category) && frameworkId == old(frameworkId)
      ensures includeNews == old(includeNews) && goal == old(goal) && tone == old(tone)
      ensures old(Valid()) ==> Valid()
    {
      topic := t;
    }

    method SetIncludeNews(b: bool)
      modifies this
      ensures includeNews == b
      ensures audience == old(audience) && category == old(category) && topic == old(topic)
      ensures frameworkId == old(frameworkId) && goal == old(goal) && tone == old(tone)
      ensures old(Valid()) ==> Valid()
    {
      includeNews := b;
    }

    method SetGoal(g: PostGoal)
      modifies this
      ensures goal == g
      ensures audience == old(audience) && category == old(category) && topic == old(topic)
      ensures frameworkId == old(frameworkId) && includeNews == old(includeNews) && tone == old(tone)
      ensures old(Valid()) ==> Valid()
    {
      goal := g;
    }

    method SetTone(t: PostTone)
      modifies this
      ensures tone == t
      ensures audience == old(audience) && category == old(category) && topic == old(topic)
      ensures frameworkId == old(frameworkId) && includeNews == old(includeNews) && goal == old(goal)
      ensures old(Valid()) ==> Valid()
    {
      tone := t;
    }
  }

  /** The pro tip shown is the tip table's entry for the chosen framework. */
  lemma ProTipIsTableEntry(form: Form)
    requires form.ProTip().Some?
    ensures form.frameworkId in Catalog.FRAMEWORK_PRO_TIPS
    ensures form.ProTip().value == Catalog.FRAMEWORK_PRO_TIPS[form.frameworkId]
  {
    var selected := form.SelectedFramework();
    assert selected.value.id == form.frameworkId;
  }

  /**
   * A valid form asks for the news digest only in the News category, and the
   * request asks for a framework exactly when one is selected.
   */
  lemma ValidFormRequest(form: Form)
    requires form.Valid()
    ensures PromptDirectives.AsksForNewsDigest(form.Request()) ==> form.category == News
    ensures IsSet(form.Request().frameworkId) <==> form.SelectedFramework().Some?
  {
    if PromptDirectives.AsksForNewsDigest(form.Request()) {
      var i :| 0 <= i < |Catalog.Frameworks(form.category)| && Catalog.Frameworks(form.category)[i].id == form.frameworkId;
      PromptDirectives.NewsDigestOnlyFromNews(form.Request(), form.category, i);
    }
  }
}
