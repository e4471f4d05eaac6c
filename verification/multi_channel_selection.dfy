/**
 The multi-channel selection page: a fixed list of template categories, a
 checkbox per template, one "Select All" button and the theme switch.
 */
module MultiChannelSelection {
  import opened Selection
  import Theme

  /** One output template. */
  datatype Template = Template(id: Id, name: string, dimensions: string, ratio: string, iconRatio: string)

  /** A titled group of templates. */
  datatype Category = Category(category: string, items: seq<Template>)

  /** The page's template data, in display order. */
  const TemplateData: seq<Category> := [
    Category("Mobile", [
      Template("mobile-phone", "Phone", "1179x2556", "2:1", "tall"),
      Template("mobile-ipad", "iPad - Portrait", "1668x2388", "2:1", "tall")]),
    Category("Web", [
      Template("web-common", "Web - Common", "1366x768", "16:9", "wide"),
      Template("web-large", "Web - Large", "1920x1080", "16:9", "wide"),
      Template("web-min", "Web - Minimum", "1024x768", "4:3", "medium")]),
    Category("Print", [
      Template("print-half", "Ads Half Page", "300x600", "1:2", "skyscraper"),
      Template("print-sky", "Ads Wide Skyscraper", "160x600", "1:3", "skyscraper")]),
    Category("Social", [
      Template("social-insta", "Instagram Reel/Story", "1080x1920", "16:9", "wide"),
      Template("social-yt", "Youtube Thumbnail", "1280x720", "16:9", "wide"),
      Template("social-linkedin", "Linkedin Square", "1080x1080", "1:1", "square")])
  ]

  /** The ids of one category's templates, in order. */
  function CategoryIds(cat: Category): (r: seq<Id>)
    ensures |r| == |cat.items|
    ensures forall k :: 0 <= k < |r| ==> r[k] == cat.items[k].id
  {
    seq(|cat.items|, k requires 0 <= k < |cat.items| => cat.items[k].id)
  }

  /** Every category's id list, in category order. */
  function IdLists(cats: seq<Category>): (r: seq<seq<Id>>)
    ensures |r| == |cats|
    ensures forall i :: 0 <= i < |r| ==> r[i] == CategoryIds(cats[i])
  {
    seq(|cats|, i requires 0 <= i < |cats| => CategoryIds(cats[i]))
  }

  /** `allTemplateIds`: every template id, category by category. */
  const AllTemplateIds: seq<Id> := Flatten(IdLists(TemplateData))

  /** The templates checked when the page first renders. */
  const InitialSelection: seq<Id> := ["web-min"]

  /** The page's ten template ids, in display order. */
  const TenIds: seq<Id> := [
    "mobile-phone", "mobile-ipad", "web-common", "web-large", "web-min",
    "print-half", "print-sky", "social-insta", "social-yt", "social-linkedin"]

  /** `allTemplateIds` is the in-order flattening of the categories: ten
      distinct ids. */
  lemma AllTemplateIdsAreTen()
    ensures AllTemplateIds == TenIds
    ensures NoDup(AllTemplateIds)
  {
    var ss := IdLists(TemplateData);
    assert ss[0] == ["mobile-phone", "mobile-ipad"];
    assert ss[1] == ["web-common", "web-large", "web-min"];
    assert ss[2] == ["print-half", "print-sky"];
    assert ss[3] == ["social-insta", "social-yt", "social-linkedin"];
    assert ss == [
      ["mobile-phone", "mobile-ipad"],
      ["web-common", "web-large", "web-min"],
      ["print-half", "print-sky"],
      ["social-insta", "social-yt", "social-linkedin"]];
    assert Flatten(ss[3..]) == ss[3];
    assert Flatten(ss[2..]) == ss[2] + ss[3];
    assert Flatten(ss[1..]) == ss[1] + ss[2] + ss[3];
    TenIdsDistinct();
  }

  /** The ten template ids are distinct. */
  lemma TenIdsDistinct()
    ensures NoDup(TenIds)
  {
  }

  /** The initial selection satisfies the invariant. */
  lemma InitialSelectionWellformed()
    ensures Wellformed(InitialSelection, AllTemplateIds)
  {
    AllTemplateIdsAreTen();
    assert InitialSelection[0] == TenIds[4];
  }

  /** `handleCheckboxChange`: flips the membership of one template id and
      nothing else, and keeps the invariant for a template of the page. */
  function CheckboxChange(sel: seq<Id>, id: Id): (r: seq<Id>)
    ensures id in r <==> id !in sel
    ensures forall y :: y != id ==> (y in r <==> y in sel)
    ensures id !in sel ==> r == sel + [id]
    ensures Wellformed(sel, AllTemplateIds) && id in AllTemplateIds ==> Wellformed(r, AllTemplateIds)
  {
    var r := Toggle(sel, id);
    assert Wellformed(sel, AllTemplateIds) && id in AllTemplateIds ==> Wellformed(r, AllTemplateIds) by {
      if Wellformed(sel, AllTemplateIds) && id in AllTemplateIds {
        ToggleKeepsWellformed(sel, AllTemplateIds, id);
      }
    }
    r
  }

  /** Checking a template twice restores the selection's membership, and the
      very same list when it was unchecked. */
  lemma CheckboxChangeTwice(sel: seq<Id>, id: Id)
    ensures forall y :: y in CheckboxChange(CheckboxChange(sel, id), id) <==> y in sel
    ensures id !in sel ==> CheckboxChange(CheckboxChange(sel, id), id) == sel
  {
    ToggleTwice(sel, id);
  }

  /** `handleSelectAll`: the length test clears a complete selection and
      selects all ten templates otherwise; under the invariant "complete"
      means every template is checked. */
  function SelectAll(sel: seq<Id>): (r: seq<Id>)
    ensures Wellformed(r, AllTemplateIds)
    ensures |sel| == |AllTemplateIds| ==> r == []
    ensures |sel| != |AllTemplateIds| ==> r == TenIds
    ensures Wellformed(sel, AllTemplateIds) ==> (AllSelected(sel, AllTemplateIds) <==> r == [])
  {
    AllTemplateIdsAreTen();
    var r := SelectAllToggle(sel, AllTemplateIds);
    assert Wellformed(sel, AllTemplateIds) ==> (AllSelected(sel, AllTemplateIds) <==> r == []) by {
      if Wellformed(sel, AllTemplateIds) {
        SelectAllToggleMeaning(sel, AllTemplateIds);
      }
    }
    r
  }

  /** The page's state: the checked templates and the theme. */
  datatype PageState = PageState(selected: seq<Id>, theme: Theme.Theme)

  /** The page as it first renders. */
  const InitialPage: PageState := PageState(InitialSelection, Theme.Initial)

  /** What the user can do: click template `item` of category `cat`, click
      "Select All", click the theme switch. */
  datatype PageAction = CheckTemplate(cat: nat, item: nat) | SelectAllTemplates | ToggleTheme

  /** An action on a control the page renders. */
  predicate Rendered(a: PageAction) {
    match a
    case CheckTemplate(c, i) => c < |TemplateData| && i < |TemplateData[c].items|
    case SelectAllTemplates => true
    case ToggleTheme => true
  }

  /** The page after one action. */
  function Apply(p: PageState, a: PageAction): PageState
    requires Rendered(a)
  {
    match a
    case CheckTemplate(c, i) => p.(selected := CheckboxChange(p.selected, TemplateData[c].items[i].id))
    case SelectAllTemplates => p.(selected := SelectAll(p.selected))
    case ToggleTheme => p.(theme := Theme.ThemeToggle(p.theme))
  }

  /** The page after a sequence of actions. */
  function Replay(p: PageState, actions: seq<PageAction>): PageState
    requires forall k :: 0 <= k < |actions| ==> Rendered(actions[k])
    decreases |actions|
  {
    if |actions| == 0 then p else Replay(Apply(p, actions[0]), actions[1..])
  }

  /** A rendered checkbox's id is one of the page's template ids. */
  lemma RenderedIdInUniverse(c: nat, i: nat)
    requires c < |TemplateData| && i < |TemplateData[c].items|
    ensures TemplateData[c].items[i].id in AllTemplateIds
  {
    var ss := IdLists(TemplateData);
    assert TemplateData[c].items[i].id == ss[c][i];
  }

  /** Every action keeps the selection invariant. */
  lemma {:induction false} ReplayKeepsWellformed(p: PageState, actions: seq<PageAction>)
    requires Wellformed(p.selected, AllTemplateIds)
    requires forall k :: 0 <= k < |actions| ==> Rendered(actions[k])
    ensures Wellformed(Replay(p, actions).selected, AllTemplateIds)
    decreases |actions|
  {
    if |actions| > 0 {
      var a := actions[0];
      if a.CheckTemplate? {
        RenderedIdInUniverse(a.cat, a.item);
      }
      ReplayKeepsWellformed(Apply(p, a), actions[1..]);
    }
  }

  /** Every selection the page can reach keeps the invariant, so the length
      test of "Select All" decides exactly "every template is checked". */
  lemma ReachableSelectionsWellformed(actions: seq<PageAction>)
    requires forall k :: 0 <= k < |actions| ==> Rendered(actions[k])
    ensures Wellformed(Replay(InitialPage, actions).selected, AllTemplateIds)
    ensures |Replay(InitialPage, actions).selected| == |AllTemplateIds| <==> AllSelected(Replay(InitialPage, actions).selected, AllTemplateIds)
  {
    InitialSelectionWellformed();
    ReplayKeepsWellformed(InitialPage, actions);
    AllTemplateIdsAreTen();
    LengthMeansAllSelected(Replay(InitialPage, actions).selected, AllTemplateIds);
  }
}
