/**
 * src/pages/Users.tsx: the search filter over the fetched profiles and the
 * state updates after the fetch. The fetch itself is a remote query; its
 * result is an input here.
 */
module UsersPage {
  import opened Types
  import opened Text
  import opened Seqs

  /** A row of the `profiles` table; `role` is free text there. */
  datatype UserProfile = UserProfile(id: string, name: string, email: string, role: string, createdAt: string)

  /** The search box matches name, email or role, ignoring case. */
  predicate SearchHit(term: string, u: UserProfile)
  {
    MatchesSearch(u.name, term) || MatchesSearch(u.email, term) || MatchesSearch(u.role, term)
  }

  /** `filteredUsers` */
  function FilteredUsers(users: seq<UserProfile>, term: string): seq<UserProfile>
  {
    Filter(users, u => SearchHit(term, u))
  }

  /**
   * A profile is listed iff its name, email or role contains the term,
   * ignoring case; the list keeps the fetched order; the "No users match"
   * row shows iff no profile matches.
   */
  lemma FilteredUsersSpec(users: seq<UserProfile>, term: string, u: UserProfile) returns (idx: seq<nat>)
    ensures u in FilteredUsers(users, term) <==> u in users && SearchHit(term, u)
    ensures Embeds(idx, FilteredUsers(users, term), users)
    ensures forall i :: 0 <= i < |users| ==> (SearchHit(term, users[i]) <==> i in idx)
    ensures FilteredUsers(users, term) == [] <==> forall v :: v in users ==> !SearchHit(term, v)
  {
    FilterMembership(users, u => SearchHit(term, u), u);
    idx := FilterSelects(users, u => SearchHit(term, u));
    FilterEmptyIff(users, u => SearchHit(term, u));
  }

  /** An empty search term lists every profile. */
  lemma EmptySearchKeepsAll(users: seq<UserProfile>)
    ensures FilteredUsers(users, "") == users
  {
    forall u | u in users
      ensures SearchHit("", u)
    {
      EmptyTermMatches(u.name);
    }
    FilterKeepsAll(users, u => SearchHit("", u));
  }

  /** What the profiles query answered: rows (possibly null), or an error. */
  datatype FetchResult = Fetched(data: Option<seq<UserProfile>>) | FetchFailed(message: string)

  /** The page's fetched list and its loading flag. */
  class UsersState {
    var users: seq<UserProfile>
    var isLoading: bool

    constructor ()
      ensures users == [] && isLoading
    {
      users := [];
      isLoading := true;
    }

    /**
     * The continuation of `fetchUsers`: rows replace the list (null data
     * gives the empty list), an error keeps the list and shows the error
     * toast; loading ends either way.
     */
    method FinishFetch(result: FetchResult) returns (errorToast: bool)
      modifies this
      ensures !isLoading
      ensures errorToast <==> result.FetchFailed?
      ensures users == match result
                       case Fetched(Some(rows)) => rows
                       case Fetched(None) => []
                       case FetchFailed(_) => old(users)
    {
      errorToast := false;
      if result.Fetched? {
        users := if result.data.Some? then result.data.value else [];
      } else {
        // the error is logged and a toast shown; the list is left as it was
        errorToast := true;
      }
      isLoading := false;
    }
  }
}
