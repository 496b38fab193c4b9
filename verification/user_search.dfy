/** The user search of the backend (`UserSearchView.get_queryset` in
    backend/api/views.py): strip the query, refuse short ones, and return at
    most twenty users whose username or profile full name contains the query,
    ignoring case. */
module UserSearch {
  import opened Common
  import opened Seqs
  import opened Text
  import opened Models

  /** A user row joined with its (optional) profile. */
  datatype UserRow = UserRow(id: UserId, username: string, profile: Option<Profile>)

  /** The shortest stripped query that is searched. */
  const MinQueryLength: nat := 2

  /** The slice applied to the result. */
  const MaxResults: nat := 20

  /** `username__icontains=q | profile__full_name__icontains=q`; a user without
      a profile can only match by username. */
  predicate Matches(u: UserRow, q: string)
  {
    || ContainsIgnoreCase(u.username, q)
    || (u.profile.Some? && ContainsIgnoreCase(u.profile.value.fullName, q))
  }

  function MatchesQuery(q: string): UserRow -> bool
  {
    u => Matches(u, q)
  }

  /** The query parameter `q` (default '') with Python whitespace stripped. */
  function Query(raw: Option<string>): string
  {
    Trim(raw.GetOr(""), PySpace)
  }

  predicate DistinctIds(rows: seq<UserRow>)
  {
    forall i, j :: 0 <= i < j < |rows| ==> rows[i].id != rows[j].id
  }

  /** GET search/?q=… over the user table `rows` in primary-key order. */
  function Search(rows: seq<UserRow>, raw: Option<string>): (r: seq<UserRow>)
    ensures |r| <= MaxResults
    ensures |Query(raw)| < MinQueryLength ==> r == []
    ensures forall u :: u in r ==> u in rows && Matches(u, Query(raw))
    ensures |Query(raw)| >= MinQueryLength && |Filter(rows, MatchesQuery(Query(raw)))| <= MaxResults
      ==> forall u :: u in rows && Matches(u, Query(raw)) ==> u in r
    ensures |Query(raw)| >= MinQueryLength && |Filter(rows, MatchesQuery(Query(raw)))| > MaxResults
      ==> |r| == MaxResults
    ensures DistinctIds(rows) ==> DistinctIds(r)
  {
    var q := Query(raw);
    if |q| < MinQueryLength then []
    else
      var hits := Filter(rows, MatchesQuery(q));
      DistinctIdsFiltered(rows, MatchesQuery(q));
      Take(hits, MaxResults)
  }

  /** Filtering keeps ids distinct: the result is a subsequence. */
  lemma DistinctIdsFiltered(rows: seq<UserRow>, p: UserRow -> bool)
    ensures DistinctIds(rows) ==> DistinctIds(Filter(rows, p))
  {
    if DistinctIds(rows) {
      assert Pairwise(rows, (a: UserRow, b: UserRow) => a.id != b.id);
      FilterPairwise(rows, p, (a: UserRow, b: UserRow) => a.id != b.id);
    }
  }
}
