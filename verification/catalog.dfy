/** The fixed placement catalog (constants.ts `PLACEMENTS`) and its
    per-group filter `PLACEMENTS.filter(p => p.group === formatGroup)`. */
module Catalog {
  import opened Basics
  import opened Types

  /** `PLACEMENTS`, row for row. */
  const Placements: seq<Placement> := [
    // Facebook
    Placement(FbFeed, Facebook, "Feed (Noticias)", Feed, SquareLike,
              ["1:1", "4:5"], "1080x1080 / 1350 px", SafeZone("10%", "10%", None, None)),
    Placement(FbVideoFeed, Facebook, "Video Feed", Feed, SquareLike,
              ["4:5", "1:1"], "1080x1350 px", SafeZone("10%", "10%", None, None)),
    Placement(FbStories, Facebook, "Stories", Stories, Vertical,
              ["9:16"], "1080x1920 px", SafeZone("14%", "20%", None, None)),
    Placement(FbReels, Facebook, "Reels", Reels, Vertical,
              ["9:16"], "1080x1920 px", SafeZone("14%", "20%", None, None)),
    Placement(FbMarketplace, Facebook, "Marketplace", Marketplace, SquareLike,
              ["1:1"], "1080x1080 px", SafeZone("10%", "10%", Some("10%"), Some("10%"))),
    // Instagram
    Placement(IgFeed, Instagram, "Feed", Feed, SquareLike,
              ["1:1", "4:5"], "1080x1080 / 1350 px", SafeZone("10%", "10%", None, None)),
    Placement(IgStories, Instagram, "Stories", Stories, Vertical,
              ["9:16"], "1080x1920 px", SafeZone("14%", "20%", None, None)),
    Placement(IgReels, Instagram, "Reels", Reels, Vertical,
              ["9:16"], "1080x1920 px", SafeZone("14%", "20%", None, None)),
    Placement(IgExplore, Instagram, "Explore", Feed, SquareLike,
              ["1:1"], "1080x1080 px", SafeZone("10%", "15%", Some("10%"), Some("15%"))),
    // Messenger
    Placement(MessengerInbox, Messenger, "Inbox", MessengerInboxUi, SquareLike,
              ["1.91:1"], "1200x628 px", SafeZone("10%", "10%", Some("10%"), Some("10%"))),
    Placement(MessengerStories, Messenger, "Stories", Stories, Vertical,
              ["9:16"], "1080x1920 px", SafeZone("14%", "20%", None, None)),
    // Audience Network
    Placement(AudienceNetwork, AudienceNetworkPlatform, "Nativo/Intersticial", Stories, Vertical,
              ["9:16", "1:1", "1.91:1"], "1080x1920 px", SafeZone("15%", "20%", None, None))
  ]

  /** The entries of `ps[k..]` that belong to `group`, in their original
      order. */
  function FilterFrom(ps: seq<Placement>, group: FormatGroup, k: nat): (r: seq<Placement>)
    requires k <= |ps|
    ensures |r| <= |ps| - k
    ensures forall i :: 0 <= i < |r| ==> r[i].group == group
    decreases |ps| - k
  {
    if k == |ps| then []
    else
      var rest := FilterFrom(ps, group, k + 1);
      if ps[k].group == group then [ps[k]] + rest else rest
  }

  /** `ps.filter(p => p.group === group)` */
  function FilterByGroup(ps: seq<Placement>, group: FormatGroup): seq<Placement> {
    FilterFrom(ps, group, 0)
  }

  /** The filter keeps exactly the entries of the group. */
  lemma {:induction false} FilterFromMembers(ps: seq<Placement>, group: FormatGroup, k: nat)
    requires k <= |ps|
    ensures forall p :: p in FilterFrom(ps, group, k) <==> p in ps[k..] && p.group == group
    decreases |ps| - k
  {
    if k < |ps| {
      FilterFromMembers(ps, group, k + 1);
      assert ps[k..] == [ps[k]] + ps[k + 1..];
    }
  }

  lemma FilterMembers(ps: seq<Placement>, group: FormatGroup)
    ensures forall p :: p in FilterByGroup(ps, group) <==> p in ps && p.group == group
  {
    FilterFromMembers(ps, group, 0);
    assert ps[0..] == ps;
  }

  /** The catalog entries shown, prompted for and critiqued for `group`. */
  function PlacementsFor(group: FormatGroup): seq<Placement> {
    FilterByGroup(Placements, group)
  }

  /** The identifiers of a list of placements, position by position. */
  function Ids(ps: seq<Placement>): (ids: seq<PlacementId>)
    ensures |ids| == |ps|
    ensures forall i :: 0 <= i < |ps| ==> ids[i] == ps[i].id
  {
    seq(|ps|, i requires 0 <= i < |ps| => ps[i].id)
  }

  /** Filtering by the two groups splits any suffix of a placement list: the
      two counts add up, and together the two results hold each entry exactly
      as often as the suffix does. */
  lemma {:induction false} FilterFromPartitions(ps: seq<Placement>, k: nat)
    requires k <= |ps|
    ensures |FilterFrom(ps, SquareLike, k)| + |FilterFrom(ps, Vertical, k)| == |ps| - k
    ensures multiset(FilterFrom(ps, SquareLike, k)) + multiset(FilterFrom(ps, Vertical, k)) == multiset(ps[k..])
    decreases |ps| - k
  {
    if k < |ps| {
      FilterFromPartitions(ps, k + 1);
      var sq, vt := FilterFrom(ps, SquareLike, k + 1), FilterFrom(ps, Vertical, k + 1);
      assert ps[k..] == [ps[k]] + ps[k + 1..];
      assert multiset(ps[k..]) == multiset{ps[k]} + multiset(ps[k + 1..]);
      if ps[k].group == SquareLike {
        assert FilterFrom(ps, SquareLike, k) == [ps[k]] + sq;
        assert FilterFrom(ps, Vertical, k) == vt;
        assert multiset([ps[k]] + sq) == multiset{ps[k]} + multiset(sq);
      } else {
        assert FilterFrom(ps, SquareLike, k) == sq;
        assert FilterFrom(ps, Vertical, k) == [ps[k]] + vt;
        assert multiset([ps[k]] + vt) == multiset{ps[k]} + multiset(vt);
      }
    }
  }

  /** The two group filters split every placement list. */
  lemma FilterPartitions(ps: seq<Placement>)
    ensures |FilterByGroup(ps, SquareLike)| + |FilterByGroup(ps, Vertical)| == |ps|
    ensures multiset(FilterByGroup(ps, SquareLike)) + multiset(FilterByGroup(ps, Vertical)) == multiset(ps)
  {
    FilterFromPartitions(ps, 0);
    assert ps[0..] == ps;
  }

  /** The identifiers of the catalog rows, in catalog order. */
  const CatalogOrder: seq<PlacementId> :=
    [FbFeed, FbVideoFeed, FbStories, FbReels, FbMarketplace,
     IgFeed, IgStories, IgReels, IgExplore,
     MessengerInbox, MessengerStories, AudienceNetwork]

  lemma CatalogIds()
    ensures Ids(Placements) == CatalogOrder
  {
  }

  /** `CatalogOrder` names every identifier exactly once. */
  lemma CatalogOrderIsPermutation()
    ensures |CatalogOrder| == PlacementIdCount
    ensures forall i, j :: 0 <= i < j < |CatalogOrder| ==> CatalogOrder[i] != CatalogOrder[j]
    ensures forall id: PlacementId :: id in CatalogOrder
  {
    var ids := CatalogOrder;
    forall id: PlacementId
      ensures id in ids
    {
      match id
      case FbFeed => assert ids[0] == id;
      case FbVideoFeed => assert ids[1] == id;
      case FbStories => assert ids[2] == id;
      case FbReels => assert ids[3] == id;
      case FbMarketplace => assert ids[4] == id;
      case IgFeed => assert ids[5] == id;
      case IgStories => assert ids[6] == id;
      case IgReels => assert ids[7] == id;
      case IgExplore => assert ids[8] == id;
      case MessengerInbox => assert ids[9] == id;
      case MessengerStories => assert ids[10] == id;
      case AudienceNetwork => assert ids[11] == id;
    }
  }

  /** The catalog has twelve entries with pairwise distinct identifiers, and
      every `PlacementId` is the identifier of one of them. */
  lemma CatalogIdsUnique()
    ensures |Placements| == PlacementIdCount
    ensures forall i, j :: 0 <= i < j < |Placements| ==> Placements[i].id != Placements[j].id
    ensures forall id: PlacementId :: id in Ids(Placements)
  {
    CatalogIds();
    CatalogOrderIsPermutation();
    var ids := Ids(Placements);
    forall i, j | 0 <= i < j < |Placements|
      ensures Placements[i].id != Placements[j].id
    {
      assert Placements[i].id == ids[i] && Placements[j].id == ids[j];
    }
  }

  /** The catalog rows that belong to the square-like group. */
  const SquareLikeRows: set<int> := {0, 1, 4, 5, 8, 9}

  lemma GroupRows()
    ensures |Placements| == 12
    ensures forall i :: 0 <= i < |Placements| ==>
              (Placements[i].group == SquareLike <==> i in SquareLikeRows)
  {
  }

  /** The square-like rows of a twelve-row list grouped like the catalog. */
  lemma SquareLikeOfCatalogShape(ps: seq<Placement>)
    requires |ps| == 12
    requires forall i :: 0 <= i < |ps| ==> (ps[i].group == SquareLike <==> i in SquareLikeRows)
    ensures FilterByGroup(ps, SquareLike) == [ps[0], ps[1], ps[4], ps[5], ps[8], ps[9]]
    ensures Ids(FilterByGroup(ps, SquareLike)) == [Ids(ps)[0], Ids(ps)[1], Ids(ps)[4], Ids(ps)[5], Ids(ps)[8], Ids(ps)[9]]
  {
    assert FilterFrom(ps, SquareLike, 12) == [];
    assert FilterFrom(ps, SquareLike, 11) == [];
    assert FilterFrom(ps, SquareLike, 10) == [];
    assert FilterFrom(ps, SquareLike, 9) == [ps[9]];
    assert FilterFrom(ps, SquareLike, 8) == [ps[8], ps[9]];
    assert FilterFrom(ps, SquareLike, 7) == [ps[8], ps[9]];
    assert FilterFrom(ps, SquareLike, 6) == [ps[8], ps[9]];
    assert FilterFrom(ps, SquareLike, 5) == [ps[5], ps[8], ps[9]];
    assert FilterFrom(ps, SquareLike, 4) == [ps[4], ps[5], ps[8], ps[9]];
    assert FilterFrom(ps, SquareLike, 3) == [ps[4], ps[5], ps[8], ps[9]];
    assert FilterFrom(ps, SquareLike, 2) == [ps[4], ps[5], ps[8], ps[9]];
    assert FilterFrom(ps, SquareLike, 1) == [ps[1], ps[4], ps[5], ps[8], ps[9]];
    assert FilterFrom(ps, SquareLike, 0) == [ps[0], ps[1], ps[4], ps[5], ps[8], ps[9]];
  }

  /** The vertical rows of a twelve-row list grouped like the catalog. */
  lemma VerticalOfCatalogShape(ps: seq<Placement>)
    requires |ps| == 12
    requires forall i :: 0 <= i < |ps| ==> (ps[i].group == SquareLike <==> i in SquareLikeRows)
    ensures FilterByGroup(ps, Vertical) == [ps[2], ps[3], ps[6], ps[7], ps[10], ps[11]]
    ensures Ids(FilterByGroup(ps, Vertical)) == [Ids(ps)[2], Ids(ps)[3], Ids(ps)[6], Ids(ps)[7], Ids(ps)[10], Ids(ps)[11]]
  {
    assert FilterFrom(ps, Vertical, 12) == [];
    assert FilterFrom(ps, Vertical, 11) == [ps[11]];
    assert FilterFrom(ps, Vertical, 10) == [ps[10], ps[11]];
    assert FilterFrom(ps, Vertical, 9) == [ps[10], ps[11]];
    assert FilterFrom(ps, Vertical, 8) == [ps[10], ps[11]];
    assert FilterFrom(ps, Vertical, 7) == [ps[7], ps[10], ps[11]];
    assert FilterFrom(ps, Vertical, 6) == [ps[6], ps[7], ps[10], ps[11]];
    assert FilterFrom(ps, Vertical, 5) == [ps[6], ps[7], ps[10], ps[11]];
    assert FilterFrom(ps, Vertical, 4) == [ps[6], ps[7], ps[10], ps[11]];
    assert FilterFrom(ps, Vertical, 3) == [ps[3], ps[6], ps[7], ps[10], ps[11]];
    assert FilterFrom(ps, Vertical, 2) == [ps[2], ps[3], ps[6], ps[7], ps[10], ps[11]];
    assert FilterFrom(ps, Vertical, 1) == [ps[2], ps[3], ps[6], ps[7], ps[10], ps[11]];
    assert FilterFrom(ps, Vertical, 0) == [ps[2], ps[3], ps[6], ps[7], ps[10], ps[11]];
  }

  /** The square-like group, in catalog order. */
  lemma SquareLikePlacements()
    ensures Ids(PlacementsFor(SquareLike)) ==
            [FbFeed, FbVideoFeed, FbMarketplace, IgFeed, IgExplore, MessengerInbox]
  {
    GroupRows();
    CatalogIds();
    SquareLikeOfCatalogShape(Placements);
  }

  /** The vertical group, in catalog order. */
  lemma VerticalPlacements()
    ensures Ids(PlacementsFor(Vertical)) ==
            [FbStories, FbReels, IgStories, IgReels, MessengerStories, AudienceNetwork]
  {
    GroupRows();
    CatalogIds();
    VerticalOfCatalogShape(Placements);
  }

  /** The two group filters split any placement list: each entry lands in
      exactly one of them and the two lengths add up. */
  lemma GroupsPartition(ps: seq<Placement>)
    ensures forall p :: p in ps <==> p in FilterByGroup(ps, SquareLike) || p in FilterByGroup(ps, Vertical)
    ensures forall p :: !(p in FilterByGroup(ps, SquareLike) && p in FilterByGroup(ps, Vertical))
    ensures |FilterByGroup(ps, SquareLike)| + |FilterByGroup(ps, Vertical)| == |ps|
  {
    FilterPartitions(ps);
    FilterMembers(ps, SquareLike);
    FilterMembers(ps, Vertical);
  }

  /** The two group filters partition the catalog. */
  lemma GroupsPartitionCatalog()
    ensures forall p :: p in Placements <==> p in PlacementsFor(SquareLike) || p in PlacementsFor(Vertical)
    ensures forall p :: !(p in PlacementsFor(SquareLike) && p in PlacementsFor(Vertical))
    ensures |PlacementsFor(SquareLike)| + |PlacementsFor(Vertical)| == |Placements|
  {
    GroupsPartition(Placements);
  }

  /** Every entry accepts some aspect ratio, and every vertical entry
      lists 9:16 first. */
  lemma AspectRatioRows()
    ensures forall i :: 0 <= i < |Placements| ==> |Placements[i].aspectRatios| > 0
    ensures forall i :: 0 <= i < |Placements| && Placements[i].group == Vertical ==>
              Placements[i].aspectRatios[0] == "9:16"
  {
  }

  /** Every entry accepts some aspect ratio, and every vertical placement
      accepts 9:16. */
  lemma AspectRatios()
    ensures forall p :: p in Placements ==> |p.aspectRatios| > 0
    ensures forall p :: p in PlacementsFor(Vertical) ==> "9:16" in p.aspectRatios
  {
    AspectRatioRows();
    FilterMembers(Placements, Vertical);
  }

  /** Row by row: a side margin on one side comes with one on the other, and
      only Marketplace, Explore and the Messenger inbox declare them. */
  lemma SideMarginRows()
    ensures forall i :: 0 <= i < |Placements| ==>
              (Placements[i].safeZone.left.Some? <==> Placements[i].safeZone.right.Some?)
    ensures forall i :: 0 <= i < |Placements| ==>
              (Placements[i].safeZone.left.Some? <==> i == 4 || i == 8 || i == 9)
  {
  }

  /** Side margins are declared exactly for Marketplace, Explore and the
      Messenger inbox, and always in pairs. */
  lemma SideMargins()
    ensures forall p :: p in Placements ==>
              (p.safeZone.left.Some? <==> p.id in {FbMarketplace, IgExplore, MessengerInbox})
    ensures forall p :: p in Placements ==> (p.safeZone.left.Some? <==> p.safeZone.right.Some?)
  {
    SideMarginRows();
    CatalogIds();
    CatalogOrderIsPermutation();
    forall p | p in Placements
      ensures p.safeZone.left.Some? <==> p.id in {FbMarketplace, IgExplore, MessengerInbox}
    {
      var i :| 0 <= i < |Placements| && Placements[i] == p;
      assert p.id == CatalogOrder[i];
    }
  }
}
