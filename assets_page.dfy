/**
 * src/pages/Assets.tsx: the classification options, the role, status,
 * classification and search filters, the admin-only "Add New Asset" link and
 * the status label.
 */
module AssetsPage {
  import opened Types
  import opened Text
  import opened Seqs
  import Dashboard
  import AppLayout
  import opened AuthContext
  import opened Guards
  import opened AppRoutes

  /** The classification of every asset, in list order. */
  function ClassificationsOf(assets: seq<Asset>): seq<string>
  {
    seq(|assets|, i requires 0 <= i < |assets| => assets[i].classification)
  }

  /** `Array.from(new Set(assets.map(a => a.classification)))` */
  function Classifications(assets: seq<Asset>): seq<string>
  {
    Dedup(ClassificationsOf(assets))
  }

  /**
   * The classification options hold every classification that occurs among
   * the assets, each once, in order of first occurrence.
   */
  lemma ClassificationsSpec(assets: seq<Asset>)
    ensures forall c :: c in Classifications(assets) <==> c in ClassificationsOf(assets)
    ensures forall c :: c in Classifications(assets) <==> exists a :: a in assets && a.classification == c
    ensures NoDuplicates(Classifications(assets))
    ensures forall i, j :: 0 <= i < j < |Classifications(assets)| ==>
              FirstIndex(ClassificationsOf(assets), Classifications(assets)[i]) <
              FirstIndex(ClassificationsOf(assets), Classifications(assets)[j])
  {
    var cs := ClassificationsOf(assets);
    DedupSpec(cs);
    forall c
      ensures c in cs <==> exists a :: a in assets && a.classification == c
    {
      if c in cs {
        var i :| 0 <= i < |cs| && cs[i] == c;
        assert assets[i] in assets;
      }
      if a :| a in assets && a.classification == c {
        var i :| 0 <= i < |assets| && assets[i] == a;
        assert cs[i] == c;
      }
    }
  }

  /** The filter selections: `'all'` or one status name, `'all'` or one classification. */
  predicate PassesSelects(statusFilter: string, classificationFilter: string, a: Asset)
  {
    (statusFilter == "all" || StatusName(a.status) == statusFilter) &&
    (classificationFilter == "all" || a.classification == classificationFilter)
  }

  /** The search box here matches name or serial number only, ignoring case. */
  predicate SearchHit(term: string, a: Asset)
  {
    MatchesSearch(a.name, term) || MatchesSearch(a.serialNumber, term)
  }

  predicate Keeps(user: Option<User>, statusFilter: string, classificationFilter: string, term: string, a: Asset)
  {
    Dashboard.Permitted(user, a) && PassesSelects(statusFilter, classificationFilter, a) && SearchHit(term, a)
  }

  /** `filteredAssets`, over the page's asset list (`mockAssets`). */
  function FilteredAssets(assets: seq<Asset>, user: Option<User>, statusFilter: string,
                          classificationFilter: string, term: string): seq<Asset>
  {
    Filter(assets, a => Keeps(user, statusFilter, classificationFilter, term, a))
  }

  /**
   * An asset is listed iff a technician owns it (or the user is not a
   * technician), `all` or its status is selected, `all` or its
   * classification is selected, and its name or serial number matches.
   */
  lemma FilteredAssetsMembers(assets: seq<Asset>, user: Option<User>, statusFilter: string,
                              classificationFilter: string, term: string, a: Asset)
    ensures a in FilteredAssets(assets, user, statusFilter, classificationFilter, term) <==>
              a in assets &&
              (user.Some? && user.value.role == Technician ==> a.assignedTo == user.value.id) &&
              (statusFilter != "all" ==> StatusName(a.status) == statusFilter) &&
              (classificationFilter != "all" ==> a.classification == classificationFilter) &&
              (MatchesSearch(a.name, term) || MatchesSearch(a.serialNumber, term))
  {
    FilterMembership(assets, a => Keeps(user, statusFilter, classificationFilter, term, a), a);
  }

  /**
   * The list keeps exactly the positions of the passing assets, in order, and
   * "No assets found" shows iff no asset passes.
   */
  lemma FilteredAssetsInOrder(assets: seq<Asset>, user: Option<User>, statusFilter: string,
                              classificationFilter: string, term: string) returns (idx: seq<nat>)
    ensures Embeds(idx, FilteredAssets(assets, user, statusFilter, classificationFilter, term), assets)
    ensures forall i :: 0 <= i < |assets| ==>
              (Keeps(user, statusFilter, classificationFilter, term, assets[i]) <==> i in idx)
    ensures FilteredAssets(assets, user, statusFilter, classificationFilter, term) == [] <==>
              forall a :: a in assets ==> !Keeps(user, statusFilter, classificationFilter, term, a)
  {
    idx := FilterSelects(assets, a => Keeps(user, statusFilter, classificationFilter, term, a));
    FilterEmptyIff(assets, a => Keeps(user, statusFilter, classificationFilter, term, a));
  }

  /** The "Add New Asset" link is shown only to an admin. */
  function ShowsAddLink(user: Option<User>): (shown: bool)
    ensures shown <==> user.Some? && user.value.role == Admin
  {
    user.Some? && user.value.role == Admin
  }

  /**
   * The "Add New Asset" link shows exactly when the sidebar shows its
   * Users and Reports links.
   */
  lemma AddLinkMatchesAdminNav(user: Option<User>)
    ensures ShowsAddLink(user) <==> AppLayout.IsAdmin(user)
    ensures ShowsAddLink(user) <==> AppLayout.NavItem("/users", "Users") in AppLayout.NavItems(user)
  {
    if ShowsAddLink(user) {
      assert AppLayout.NavItems(user)[2] == AppLayout.NavItem("/users", "Users");
    }
  }

  /**
   * The link is hidden from a signed-in technician, yet the `/assets/new`
   * route carries no required role, so it renders the new-asset page for
   * them all the same.
   */
  lemma AddLinkHiddenButRouteOpen(ctx: ContextValue)
    requires !ctx.isLoading && ctx.isAuthenticated
    requires ctx.user.Some? && ctx.user.value.role == Technician
    ensures !ShowsAddLink(ctx.user)
    ensures AppView(ctx, "/assets/new") == Render(NewAssetPage, true)
  {
  }

  /** The status badge text: `active`, then `neardue`, else "Expired". */
  function StatusLabel(status: AssetStatus): string
  {
    if status == Active then "Active" else if status == NearDue then "Near Due" else "Expired"
  }

  /**
   * The label agrees with the dashboard's badge for every status, and
   * distinct statuses get distinct labels.
   */
  lemma StatusLabelAgreesWithBadge(st: AssetStatus, other: AssetStatus)
    ensures StatusLabel(st) == Dashboard.BadgeText(StatusName(st))
    ensures StatusLabel(st) == StatusLabel(other) <==> st == other
  {
  }
}
