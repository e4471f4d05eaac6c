/**
 The repurposing grid: a fixed list of platforms, each with a list of item
 names; an item's id is `<platform>-<item>`. The selection is a list of ids
 with a per-item checkbox, a per-platform select-all button and a global
 select-all checkbox.
 */
module RepurposingGrid {
  import opened Selection

  /** One platform card: the platform's name and its item names. */
  datatype PlatformCard = PlatformCard(platform: string, items: seq<string>)

  // The grid's platform cards.
  const InstagramCard: PlatformCard := PlatformCard("Instagram", ["Instagram Post", "Instagram Story", "Carousel Posts", "Shop/Product Images", "Ad specific sizes"])
  const YoutubeCard: PlatformCard := PlatformCard("Youtube", ["Youtube Banner", "Youtube Thumbnail", "Profile Picture", "Lorem ipsum", "Youtube Acme", "Youtube Lorem"])
  const FacebookCard: PlatformCard := PlatformCard("Facebook", ["Facebook Story", "Facebook Post", "Carousel Posts", "Shop/Product Images", "Ad specific sizes"])
  const LinkedinCard: PlatformCard := PlatformCard("Linkedin", ["Company Page Logo & Cover", "Profile Picture", "Post Images", "Ad specific sizes", "Article Link Images"])
  const XCard: PlatformCard := PlatformCard("X", ["Profile Picture", "Header Photo", "In-Stream Photo", "Card Images (Website, App)", "Ad specific sizes"])
  const PinterestCard: PlatformCard := PlatformCard("Pinterest", ["Standard Pin", "Story Pins", "Idea Pins", "Lorem ipsum", "Acme Pin", "Lorem ipsum Ad"])
  const TikTokCard: PlatformCard := PlatformCard("TikTok", ["Profile Picture", "In-feed Video Thumbnails", "Consideration for overlay elements", "Shop/Product Images", "Ad specific sizes"])
  const AcmePlatformCard: PlatformCard := PlatformCard("Acme Platform", ["Company Page Logo & Cover", "Profile Picture", "Post Images", "Ad specific sizes", "Article Link Images"])

  /** The grid's data, in display order. */
  const Data: seq<PlatformCard> := [InstagramCard, YoutubeCard, FacebookCard, LinkedinCard, XCard, PinterestCard, TikTokCard, AcmePlatformCard]

  /** The id of one item: `${platform}-${item}`. */
  function ItemId(platform: string, item: string): Id {
    platform + "-" + item
  }

  /** The ids of one platform's items, in item order. */
  function PlatformIds(card: PlatformCard): (r: seq<Id>)
    ensures |r| == |card.items|
    ensures forall k :: 0 <= k < |r| ==> r[k] == ItemId(card.platform, card.items[k])
  {
    seq(|card.items|, k requires 0 <= k < |card.items| => ItemId(card.platform, card.items[k]))
  }

  /** Every platform's id list, in platform order. */
  function IdLists(cards: seq<PlatformCard>): (r: seq<seq<Id>>)
    ensures |r| == |cards|
    ensures forall i :: 0 <= i < |r| ==> r[i] == PlatformIds(cards[i])
  {
    seq(|cards|, i requires 0 <= i < |cards| => PlatformIds(cards[i]))
  }

  /** `allItemIds`: every item id of the grid, platform by platform. */
  const AllItemIds: seq<Id> := Flatten(IdLists(Data))

  /** The items checked when the grid first renders. */
  const InitialSelection: seq<Id> := ["Instagram-Instagram Post", "Youtube-Youtube Banner", "Facebook-Facebook Story"]

  // ---------------------------------------------------------------------
  // The universe has no duplicates
  // ---------------------------------------------------------------------

  /** The first dash of an item id ends its platform name. */
  lemma DashEndsPlatform(p1: string, i1: string, p2: string, i2: string)
    requires '-' !in p2
    requires ItemId(p1, i1) == ItemId(p2, i2)
    ensures |p2| <= |p1|
  {
    DashAfterPlatform(p1, i1);
    DashAfterPlatform(p2, i2);
  }

  /** An item id starts with its platform name followed by a dash. */
  lemma DashAfterPlatform(p: string, item: string)
    ensures ItemId(p, item)[|p|] == '-'
    ensures forall k :: 0 <= k < |p| ==> ItemId(p, item)[k] == p[k]
  {
  }

  /** When no platform name contains a dash, an item id determines both its
      platform and its item name. */
  lemma ItemIdInjective(p1: string, i1: string, p2: string, i2: string)
    requires '-' !in p1 && '-' !in p2
    requires ItemId(p1, i1) == ItemId(p2, i2)
    ensures p1 == p2 && i1 == i2
  {
    var s := ItemId(p1, i1);
    DashEndsPlatform(p1, i1, p2, i2);
    DashEndsPlatform(p2, i2, p1, i1);
    assert p1 == s[..|p1|];
    assert p2 == s[..|p2|];
    assert i1 == s[|p1| + 1..];
    assert i2 == s[|p2| + 1..];
  }

  /** A platform with distinct item names has distinct item ids. */
  lemma PlatformIdsNoDup(card: PlatformCard)
    requires '-' !in card.platform
    requires NoDup(card.items)
    ensures NoDup(PlatformIds(card))
  {
    var r := PlatformIds(card);
    forall i, j | 0 <= i < j < |r| ensures r[i] != r[j] {
      if r[i] == r[j] {
        ItemIdInjective(card.platform, card.items[i], card.platform, card.items[j]);
      }
    }
  }

  /** A card whose ids cannot collide: no dash in the platform name and no
      item name twice. */
  predicate CardIsDistinct(card: PlatformCard) {
    '-' !in card.platform && NoDup(card.items)
  }

  /** Each card of the grid has distinct ids. */
  lemma InstagramIsDistinct() ensures CardIsDistinct(InstagramCard) {}
  lemma YoutubeIsDistinct() ensures CardIsDistinct(YoutubeCard) {}
  lemma FacebookIsDistinct() ensures CardIsDistinct(FacebookCard) {}
  lemma LinkedinIsDistinct() ensures CardIsDistinct(LinkedinCard) {}
  lemma XIsDistinct() ensures CardIsDistinct(XCard) {}
  lemma PinterestIsDistinct() ensures CardIsDistinct(PinterestCard) {}
  lemma TikTokIsDistinct() ensures CardIsDistinct(TikTokCard) {}
  lemma AcmePlatformIsDistinct() ensures CardIsDistinct(AcmePlatformCard) {}

  /** Every card of the grid has distinct ids. */
  lemma CardsAreDistinct()
    ensures forall i :: 0 <= i < |Data| ==> CardIsDistinct(Data[i])
  {
    InstagramIsDistinct();
    YoutubeIsDistinct();
    FacebookIsDistinct();
    LinkedinIsDistinct();
    XIsDistinct();
    PinterestIsDistinct();
    TikTokIsDistinct();
    AcmePlatformIsDistinct();
  }

  /** The platform names of the grid, in order. */
  function PlatformNames(cards: seq<PlatformCard>): (r: seq<string>)
    ensures |r| == |cards|
    ensures forall i :: 0 <= i < |r| ==> r[i] == cards[i].platform
  {
    seq(|cards|, i requires 0 <= i < |cards| => cards[i].platform)
  }

  /** No two cards of the grid's data share a platform name. */
  lemma PlatformsAreDistinct()
    ensures forall i, j :: 0 <= i < j < |Data| ==> Data[i].platform != Data[j].platform
  {
    assert PlatformNames(Data) == ["Instagram", "Youtube", "Facebook", "Linkedin", "X", "Pinterest", "TikTok", "Acme Platform"];
    assert NoDup(PlatformNames(Data));
  }

  /** `allItemIds` lists every item id once. */
  lemma AllItemIdsNoDup()
    ensures NoDup(AllItemIds)
  {
    CardsAreDistinct();
    PlatformsAreDistinct();
    var ss := IdLists(Data);
    forall i | 0 <= i < |ss| ensures NoDup(ss[i]) {
      PlatformIdsNoDup(Data[i]);
    }
    forall i, j, x | 0 <= i < j < |ss| && x in ss[i] ensures x !in ss[j] {
      if x in ss[j] {
        var a :| 0 <= a < |Data[i].items| && ss[i][a] == x;
        var b :| 0 <= b < |Data[j].items| && ss[j][b] == x;
        ItemIdInjective(Data[i].platform, Data[i].items[a], Data[j].platform, Data[j].items[b]);
      }
    }
    FlattenNoDup(ss);
  }

  /** Every id of a card of the grid is in `allItemIds`. */
  lemma CardIdsInUniverse(c: nat)
    requires c < |Data|
    ensures Within(PlatformIds(Data[c]), AllItemIds)
  {
    forall x | x in PlatformIds(Data[c]) ensures x in AllItemIds {
      assert x in IdLists(Data)[c];
    }
  }

  /** The three initially checked ids are distinct. */
  lemma InitialSelectionDistinct()
    ensures NoDup(InitialSelection)
  {
  }

  /** The initial selection satisfies the invariant. */
  lemma InitialSelectionWellformed()
    ensures Wellformed(InitialSelection, AllItemIds)
  {
    InitialSelectionDistinct();
    InitialIdsAreFirstItems();
    CardIdsInUniverse(0);
    CardIdsInUniverse(1);
    CardIdsInUniverse(2);
  }

  /** The initially checked ids are the first ids of the first three cards. */
  lemma InitialIdsAreFirstItems()
    ensures InitialSelection[0] == PlatformIds(Data[0])[0]
    ensures InitialSelection[1] == PlatformIds(Data[1])[0]
    ensures InitialSelection[2] == PlatformIds(Data[2])[0]
  {
    assert ItemId("Instagram", "Instagram Post") == InitialSelection[0];
    assert ItemId("Youtube", "Youtube Banner") == InitialSelection[1];
    assert ItemId("Facebook", "Facebook Story") == InitialSelection[2];
  }

  // ---------------------------------------------------------------------
  // The handlers
  // ---------------------------------------------------------------------

  /** `handleCheckChange`: flips the membership of one id and nothing else,
      and keeps the invariant for an id of the grid. */
  function CheckChange(sel: seq<Id>, id: Id): (r: seq<Id>)
    ensures id in r <==> id !in sel
    ensures forall y :: y != id ==> (y in r <==> y in sel)
    ensures id !in sel ==> r == sel + [id]
    ensures Wellformed(sel, AllItemIds) && id in AllItemIds ==> Wellformed(r, AllItemIds)
  {
    var r := Toggle(sel, id);
    assert Wellformed(sel, AllItemIds) && id in AllItemIds ==> Wellformed(r, AllItemIds) by {
      if Wellformed(sel, AllItemIds) && id in AllItemIds {
        ToggleKeepsWellformed(sel, AllItemIds, id);
      }
    }
    r
  }

  /** `areAllPlatformItemsChecked`: every id of the card is selected. */
  predicate AreAllPlatformItemsChecked(sel: seq<Id>, card: PlatformCard): (b: bool)
    ensures b <==> forall i :: 0 <= i < |card.items| ==> ItemId(card.platform, card.items[i]) in sel
  {
    AllSelected(sel, PlatformIds(card))
  }

  /** `handlePlatformSelectAll`: a fully checked platform is unchecked and
      every other id stays; otherwise the whole platform ends up checked and
      nothing is lost. A card of the grid keeps the invariant. */
  function PlatformSelectAll(sel: seq<Id>, c: nat): (r: seq<Id>)
    requires c < |Data|
    ensures AreAllPlatformItemsChecked(sel, Data[c]) ==> forall x :: x in r <==> x in sel && x !in PlatformIds(Data[c])
    ensures !AreAllPlatformItemsChecked(sel, Data[c]) ==> AreAllPlatformItemsChecked(r, Data[c]) && AllSelected(r, sel)
    ensures Wellformed(sel, AllItemIds) ==> Wellformed(r, AllItemIds)
  {
    var r := GroupSelectAll(sel, PlatformIds(Data[c]));
    assert Wellformed(sel, AllItemIds) ==> Wellformed(r, AllItemIds) by {
      if Wellformed(sel, AllItemIds) {
        CardIdsInUniverse(c);
        GroupSelectAllKeepsWellformed(sel, PlatformIds(Data[c]), AllItemIds);
      }
    }
    r
  }

  /** `handleGlobalSelectAll`: clears a complete selection, selects every id
      otherwise; read through the invariant, "complete" is decided by the
      length test. */
  function GlobalSelectAll(sel: seq<Id>): (r: seq<Id>)
    ensures Wellformed(r, AllItemIds)
    ensures |sel| == |AllItemIds| ==> r == []
    ensures |sel| != |AllItemIds| ==> r == AllItemIds
    ensures Wellformed(sel, AllItemIds) && AllSelected(sel, AllItemIds) ==> r == []
    ensures Wellformed(sel, AllItemIds) && !AllSelected(sel, AllItemIds) ==> r == AllItemIds
  {
    AllItemIdsNoDup();
    var r := SelectAllToggle(sel, AllItemIds);
    assert Wellformed(sel, AllItemIds) ==> (AllSelected(sel, AllItemIds) <==> r == []) by {
      if Wellformed(sel, AllItemIds) {
        SelectAllToggleMeaning(sel, AllItemIds);
        UniverseNotEmpty();
      }
    }
    r
  }

  /** `allItemIds` is not empty. */
  lemma UniverseNotEmpty()
    ensures |AllItemIds| > 0
  {
    CardIdsInUniverse(0);
    assert PlatformIds(Data[0])[0] in AllItemIds;
  }

  /** `isAllGloballySelected`: under the invariant, the length test holds
      exactly when every id of the grid is selected. */
  function IsAllGloballySelected(sel: seq<Id>): (b: bool)
    ensures Wellformed(sel, AllItemIds) ==> (b <==> AllSelected(sel, AllItemIds))
  {
    var b := |AllItemIds| > 0 && |sel| == |AllItemIds|;
    assert Wellformed(sel, AllItemIds) ==> (b <==> AllSelected(sel, AllItemIds)) by {
      if Wellformed(sel, AllItemIds) {
        AllItemIdsNoDup();
        UniverseNotEmpty();
        LengthMeansAllSelected(sel, AllItemIds);
      }
    }
    b
  }

  /** Unchecking a fully checked platform keeps the other ids in their
      order. */
  lemma PlatformDeselectKeepsOrder(sel: seq<Id>, c: nat)
    requires c < |Data|
    requires AreAllPlatformItemsChecked(sel, Data[c])
    ensures IsSubsequence(PlatformSelectAll(sel, c), sel)
  {
    WithoutIsSubsequence(sel, PlatformIds(Data[c]));
  }

  /** Checking a partly checked platform keeps the selection in its order and
      appends the platform's missing ids in item order. */
  lemma {:induction false} PlatformSelectAppendsMissing(sel: seq<Id>, c: nat)
    requires c < |Data|
    requires NoDup(sel)
    requires !AreAllPlatformItemsChecked(sel, Data[c])
    ensures PlatformSelectAll(sel, c) == sel + Without(PlatformIds(Data[c]), sel)
  {
    CardsDistinct(c);
    PlatformIdsNoDup(Data[c]);
    GroupSelectAllAppendsMissing(sel, PlatformIds(Data[c]));
  }

  /** Pressing a platform's button twice from a partial selection checks the
      whole platform, then unchecks exactly that platform. */
  lemma {:induction false} PlatformSelectAllTwice(sel: seq<Id>, c: nat)
    requires c < |Data|
    requires NoDup(sel)
    requires !AreAllPlatformItemsChecked(sel, Data[c])
    ensures AreAllPlatformItemsChecked(PlatformSelectAll(sel, c), Data[c])
    ensures PlatformSelectAll(PlatformSelectAll(sel, c), c) == Without(sel, PlatformIds(Data[c]))
  {
    CardsDistinct(c);
    PlatformIdsNoDup(Data[c]);
    GroupSelectAllTwice(sel, PlatformIds(Data[c]));
  }

  /** One card of the grid's data has distinct ids. */
  lemma {:induction false} CardsDistinct(c: nat)
    requires c < |Data|
    ensures CardIsDistinct(Data[c])
  {
    CardsAreDistinct();
  }

  // ---------------------------------------------------------------------
  // Every reachable selection keeps the invariant
  // ---------------------------------------------------------------------

  /** What the user can do on the grid: click the checkbox of item `item` of
      card `card`, click a card's select-all button, click the global
      select-all checkbox. */
  datatype GridAction = Check(card: nat, item: nat) | PlatformAll(card: nat) | GlobalAll

  /** An action on a control the grid renders. */
  predicate Rendered(a: GridAction) {
    match a
    case Check(c, i) => c < |Data| && i < |Data[c].items|
    case PlatformAll(c) => c < |Data|
    case GlobalAll => true
  }

  /** The selection after one action. */
  function Apply(sel: seq<Id>, a: GridAction): seq<Id>
    requires Rendered(a)
  {
    match a
    case Check(c, i) => CheckChange(sel, ItemId(Data[c].platform, Data[c].items[i]))
    case PlatformAll(c) => PlatformSelectAll(sel, c)
    case GlobalAll => GlobalSelectAll(sel)
  }

  /** The selection after a sequence of actions. */
  function Replay(sel: seq<Id>, actions: seq<GridAction>): seq<Id>
    requires forall k :: 0 <= k < |actions| ==> Rendered(actions[k])
    decreases |actions|
  {
    if |actions| == 0 then sel else Replay(Apply(sel, actions[0]), actions[1..])
  }

  /** Every selection the grid can reach from its initial selection keeps the
      invariant, so the global checkbox shows exactly "everything selected". */
  lemma {:induction false} ReachableSelectionsWellformed(actions: seq<GridAction>)
    requires forall k :: 0 <= k < |actions| ==> Rendered(actions[k])
    ensures Wellformed(Replay(InitialSelection, actions), AllItemIds)
    ensures IsAllGloballySelected(Replay(InitialSelection, actions)) <==> AllSelected(Replay(InitialSelection, actions), AllItemIds)
  {
    InitialSelectionWellformed();
    ReplayKeepsWellformed(InitialSelection, actions);
  }

  /** Every action keeps the invariant. */
  lemma {:induction false} ReplayKeepsWellformed(sel: seq<Id>, actions: seq<GridAction>)
    requires Wellformed(sel, AllItemIds)
    requires forall k :: 0 <= k < |actions| ==> Rendered(actions[k])
    ensures Wellformed(Replay(sel, actions), AllItemIds)
    decreases |actions|
  {
    if |actions| > 0 {
      var a := actions[0];
      if a.Check? {
        CardIdsInUniverse(a.card);
        assert ItemId(Data[a.card].platform, Data[a.card].items[a.item]) == PlatformIds(Data[a.card])[a.item];
      }
      ReplayKeepsWellformed(Apply(sel, a), actions[1..]);
    }
  }
}
