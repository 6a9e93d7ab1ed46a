/**
 * The search predicate of `fetchUsers`, written identically in the dashboard and in the
 * search hook: a user matches when the lower-cased query occurs in the lower-cased
 * "name surname".
 */
module UserMatch {
  import opened Types
  import opened Strings
  import opened Seqs

  function FullName(u: User): string
  {
    u.name + " " + u.surname
  }

  predicate Matches(u: User, query: string)
  {
    Includes(Lower(FullName(u)), Lower(query))
  }

  /** The mock users that match `query`, in the order of the mock collection. */
  function FetchUsers(mock: seq<User>, query: string): seq<User>
  {
    Filter(mock, u => Matches(u, query))
  }

  /**
   * A user is returned exactly when it is in the collection and the lower-cased query occurs
   * somewhere in its lower-cased full name.
   */
  lemma FetchUsersMembership(mock: seq<User>, query: string, u: User)
    ensures u in FetchUsers(mock, query) <==>
      u in mock && exists i :: OccursAt(Lower(FullName(u)), Lower(query), i)
  {
    IncludesIffOccurs(Lower(FullName(u)), Lower(query));
    var r := FetchUsers(mock, query);
    if u in r {
      var k :| 0 <= k < |r| && r[k] == u;
    }
    if u in mock && Matches(u, query) {
      var k :| 0 <= k < |mock| && mock[k] == u;
    }
  }

  /** Results keep the collection's order: searching a concatenation concatenates the results. */
  lemma FetchUsersKeepsOrder(a: seq<User>, b: seq<User>, query: string)
    ensures FetchUsers(a + b, query) == FetchUsers(a, query) + FetchUsers(b, query)
  {
    FilterConcat(a, b, u => Matches(u, query));
  }

  /** A query that no user's full name contains yields no results. */
  lemma FetchUsersNoMatch(mock: seq<User>, query: string)
    requires forall i :: 0 <= i < |mock| ==> !Matches(mock[i], query)
    ensures FetchUsers(mock, query) == []
  {
    FilterAllOrNone(mock, u => Matches(u, query));
  }

  /** The empty query matches every user, so it returns the whole collection in order. */
  lemma FetchUsersEmptyQuery(mock: seq<User>)
    ensures FetchUsers(mock, "") == mock
  {
    forall i | 0 <= i < |mock| ensures Matches(mock[i], "") {
      IncludesEmpty(Lower(FullName(mock[i])));
    }
    FilterAllOrNone(mock, u => Matches(u, ""));
  }

  /** The search ignores case: a query and its lower-cased form give the same results. */
  lemma FetchUsersIgnoresCase(mock: seq<User>, query: string)
    ensures FetchUsers(mock, Lower(query)) == FetchUsers(mock, query)
  {
    LowerIdempotent(query);
    FilterAgrees(mock, u => Matches(u, Lower(query)), u => Matches(u, query));
  }
}
