/** The TravelQuest deals page: the fixed table of travel deals and the
    "Book Now" link of each, built from the `aff` query parameter. */
module TravelQuest {
  import opened Wrappers

  datatype Deal = Deal(id: string, title: string, destination: string, description: string,
                       price: string, dates: string, category: string, image: string,
                       features: seq<string>)

  const MiamiHeat: Deal := Deal("miami-heat", "Miami Heat VIP Experience", "Miami, FL",
    "Premium seats + Hotel + City tour", "$899", "Mar 15-17, 2025", "Sports", "🏀",
    ["Court-side seats", "4-star hotel", "Welcome dinner"])

  const TampaBayBucs: Deal := Deal("tampa-bay-bucs", "Tampa Bay Buccaneers Package", "Tampa, FL",
    "Game day + Beach resort stay", "$749", "Oct 8-10, 2025", "Sports", "🏈",
    ["50-yard line seats", "Beach resort", "Team store credit"])

  const OrlandoMagic: Deal := Deal("orlando-magic", "Orlando Magic Weekend", "Orlando, FL",
    "Basketball + Theme parks combo", "$1,299", "Apr 22-25, 2025", "Sports", "🎢",
    ["Premium seats", "Theme park tickets", "Downtown hotel"])

  const CaribbeanCruise: Deal := Deal("caribbean-cruise", "Caribbean Sports Cruise", "Multiple Ports",
    "7-day cruise with live sports viewing", "$1,899", "Jun 14-21, 2025", "Cruise", "🚢",
    ["All-inclusive", "Sports bar access", "Excursions"])

  const KeyWest: Deal := Deal("key-west", "Key West Sailing Adventure", "Key West, FL",
    "Sunset sailing + Fishing tournament", "$599", "May 5-8, 2025", "Adventure", "⛵",
    ["Private yacht", "Fishing gear", "Island hopping"])

  const NashvilleNights: Deal := Deal("nashville-nights", "Nashville Sports & Music", "Nashville, TN",
    "Titans game + Live music scene", "$849", "Sep 12-14, 2025", "Sports", "🎸",
    ["Stadium seats", "Broadway shows", "BBQ dinner"])

  /** The `deals` table, in page order. */
  const Deals: seq<Deal> := [MiamiHeat, TampaBayBucs, OrlandoMagic, CaribbeanCruise, KeyWest, NashvilleNights]

  /** The ids of the deals, in page order (the cards' render keys). */
  const DealIds: seq<string> := seq(|Deals|, i requires 0 <= i < |Deals| => Deals[i].id)

  /** `searchParams.get("aff") || ""`. */
  function AffBase(param: Option<string>): (base: string)
    ensures param.None? ==> base == ""
    ensures param.Some? ==> base == param.value
  {
    if param.Some? && param.value != "" then param.value else ""
  }

  /** `buildAffLink`: the placeholder `#` without an affiliate base, else the
      base followed by the deal id. */
  function BuildAffLink(affBase: string, dealId: string): (link: string)
    ensures affBase == "" ==> link == "#"
    ensures affBase != "" ==>
      && |link| == |affBase| + |dealId|
      && link[..|affBase|] == affBase
      && link[|affBase|..] == dealId
  {
    if affBase == "" then "#" else affBase + dealId
  }

  /** The table's ids, in page order. */
  lemma DealIdsOfTable()
    ensures DealIds == ["miami-heat", "tampa-bay-bucs", "orlando-magic", "caribbean-cruise", "key-west", "nashville-nights"]
  {
    assert DealIds[0] == MiamiHeat.id && DealIds[1] == TampaBayBucs.id && DealIds[2] == OrlandoMagic.id;
    assert DealIds[3] == CaribbeanCruise.id && DealIds[4] == KeyWest.id && DealIds[5] == NashvilleNights.id;
  }

  /** The ids differ pairwise, so each render key names one card. */
  lemma DealIdsDistinct()
    ensures forall i, j :: 0 <= i < j < |Deals| ==> Deals[i].id != Deals[j].id
  {
    DealIdsOfTable();
    forall i, j | 0 <= i < j < |DealIds|
      ensures DealIds[i] != DealIds[j]
    {
      // Ids of different lengths differ; the two of length 16 differ in
      // their first character.
      if |DealIds[i]| == |DealIds[j]| {
        assert DealIds[i][0] != DealIds[j][0];
      }
    }
  }

  /** Without an affiliate base every deal links to the placeholder; with
      one, no deal does. */
  lemma PlaceholderIffNoAffiliate(param: Option<string>)
    ensures forall i :: 0 <= i < |Deals| ==>
      (BuildAffLink(AffBase(param), Deals[i].id) == "#" <==> (param.None? || param == Some("")))
  {
    DealIdsOfTable();
    forall i | 0 <= i < |Deals|
      ensures BuildAffLink(AffBase(param), Deals[i].id) == "#" <==> (param.None? || param == Some(""))
    {
      assert |DealIds[i]| >= 1;
    }
  }

  /** With a non-empty base, distinct deal ids give distinct links. */
  lemma LinksInjective(affBase: string, id1: string, id2: string)
    requires affBase != ""
    ensures BuildAffLink(affBase, id1) == BuildAffLink(affBase, id2) <==> id1 == id2
  {
    var l1, l2 := BuildAffLink(affBase, id1), BuildAffLink(affBase, id2);
    if l1 == l2 {
      assert id1 == l1[|affBase|..] == l2[|affBase|..] == id2;
    }
  }

  /** With a non-empty base, the six "Book Now" links differ pairwise. */
  lemma DealLinksDistinct(affBase: string)
    requires affBase != ""
    ensures forall i, j :: 0 <= i < j < |Deals| ==>
      BuildAffLink(affBase, Deals[i].id) != BuildAffLink(affBase, Deals[j].id)
  {
    DealIdsDistinct();
    forall i, j | 0 <= i < j < |Deals|
      ensures BuildAffLink(affBase, Deals[i].id) != BuildAffLink(affBase, Deals[j].id)
    {
      LinksInjective(affBase, Deals[i].id, Deals[j].id);
    }
  }
}
