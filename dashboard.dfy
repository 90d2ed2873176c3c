/**
 * src/pages/Dashboard.tsx: the role- and search-filtered asset list, the
 * three status counts, the per-tab lists and the status badge text.
 */
module Dashboard {
  import opened Types
  import opened Text
  import opened Seqs
  import MockData

  /** A technician sees only the assets assigned to them; everyone else sees all. */
  predicate Permitted(user: Option<User>, a: Asset)
  {
    !(user.Some? && user.value.role == Technician && a.assignedTo != user.value.id)
  }

  /** The search box matches name, serial number or classification, ignoring case. */
  predicate SearchHit(term: string, a: Asset)
  {
    MatchesSearch(a.name, term) || MatchesSearch(a.serialNumber, term) || MatchesSearch(a.classification, term)
  }

  predicate Keeps(user: Option<User>, term: string, a: Asset)
  {
    Permitted(user, a) && SearchHit(term, a)
  }

  /** `filteredAssets`, over the page's asset list (`mockAssets`). */
  function FilteredAssets(assets: seq<Asset>, user: Option<User>, term: string): seq<Asset>
  {
    Filter(assets, a => Keeps(user, term, a))
  }

  /**
   * An asset is listed iff it is in the list, the role permits it and the
   * search matches; a technician's list holds only their own assets, and for
   * an admin or no user the role excludes nothing.
   */
  lemma FilteredAssetsMembers(assets: seq<Asset>, user: Option<User>, term: string, a: Asset)
    ensures a in FilteredAssets(assets, user, term) <==> a in assets && Permitted(user, a) && SearchHit(term, a)
    ensures a in FilteredAssets(assets, user, term) && user.Some? && user.value.role == Technician ==>
              a.assignedTo == user.value.id
    ensures (user.None? || user.value.role == Admin) ==>
              (a in FilteredAssets(assets, user, term) <==> a in assets && SearchHit(term, a))
  {
    FilterMembership(assets, a => Keeps(user, term, a), a);
  }

  /** The list keeps exactly the positions of the permitted, matching assets, in order. */
  lemma FilteredAssetsInOrder(assets: seq<Asset>, user: Option<User>, term: string) returns (idx: seq<nat>)
    ensures Embeds(idx, FilteredAssets(assets, user, term), assets)
    ensures forall i :: 0 <= i < |assets| ==> (Keeps(user, term, assets[i]) <==> i in idx)
  {
    idx := FilterSelects(assets, a => Keeps(user, term, a));
  }

  /** With an empty search term every permitted asset is listed. */
  lemma EmptySearchKeepsPermitted(assets: seq<Asset>, user: Option<User>)
    ensures FilteredAssets(assets, user, "") == Filter(assets, a => Permitted(user, a))
  {
    forall a | a in assets
      ensures Keeps(user, "", a) == Permitted(user, a)
    {
      EmptyTermMatches(a.name);
    }
    FilterCongruent(assets, a => Keeps(user, "", a), a => Permitted(user, a));
  }

  /** `filteredAssets.filter(a => a.status === st).length` */
  function CountStatus(assets: seq<Asset>, st: AssetStatus): nat
  {
    |Filter(assets, (a: Asset) => a.status == st)|
  }

  /** The active, near-due and expired counts add up to the number of listed assets. */
  lemma {:induction false} StatusCountsSum(assets: seq<Asset>)
    ensures CountStatus(assets, Active) + CountStatus(assets, NearDue) + CountStatus(assets, Expired) == |assets|
  {
    if assets != [] {
      StatusCountsSum(assets[1..]);
    }
  }

  /** A tab of the table: `all` or one status. */
  function TabAssets(filtered: seq<Asset>, tab: string): seq<Asset>
  {
    Filter(filtered, (a: Asset) => tab == "all" || StatusName(a.status) == tab)
  }

  /**
   * Tab `all` shows the whole filtered list; a status tab shows exactly the
   * filtered assets with that status, and its "No assets found" note shows
   * iff none has it.
   */
  lemma TabContents(filtered: seq<Asset>, st: AssetStatus, a: Asset)
    ensures TabAssets(filtered, "all") == filtered
    ensures a in TabAssets(filtered, StatusName(st)) <==> a in filtered && a.status == st
    ensures TabAssets(filtered, StatusName(st)) == [] <==> forall b :: b in filtered ==> b.status != st
  {
    FilterKeepsAll(filtered, (a: Asset) => "all" == "all" || StatusName(a.status) == "all");
    var tab := StatusName(st);
    var onTab := (a: Asset) => tab == "all" || StatusName(a.status) == tab;
    forall b: Asset
      ensures onTab(b) <==> b.status == st
    {
      StatusNameInjective(b.status, st);
    }
    FilterMembership(filtered, onTab, a);
    FilterEmptyIff(filtered, onTab);
  }

  /** `StatusBadge`: the badge text for a status string. */
  function BadgeText(status: string): string
  {
    if status == "active" then "Active"
    else if status == "neardue" then "Near Due"
    else if status == "expired" then "Expired"
    else "Unknown"
  }

  /**
   * Every status gets its own badge text, never "Unknown"; "Unknown" is
   * shown exactly for a string that names no status.
   */
  lemma BadgeTextByStatus(st: AssetStatus, other: AssetStatus, text: string)
    ensures BadgeText(StatusName(st)) != "Unknown"
    ensures BadgeText(StatusName(st)) == BadgeText(StatusName(other)) <==> st == other
    ensures BadgeText(text) == "Unknown" <==> text !in {"active", "neardue", "expired"}
  {
  }

  /**
   * On the demo data, an admin with an empty search sees all eight assets:
   * five active, one near due and two expired.
   */
  lemma AdminDemoCounts(admin: User)
    requires admin.role == Admin
    ensures FilteredAssets(MockData.MockAssets, Some(admin), "") == MockData.MockAssets
    ensures CountStatus(MockData.MockAssets, Active) == 5
    ensures CountStatus(MockData.MockAssets, NearDue) == 1
    ensures CountStatus(MockData.MockAssets, Expired) == 2
  {
    var assets := MockData.MockAssets;
    EmptySearchKeepsPermitted(assets, Some(admin));
    FilterKeepsAll(assets, a => Permitted(Some(admin), a));
    MockData.MockAssetStatuses();
  }
}
