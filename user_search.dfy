/** The search box shared in shape by the administration panel and the
    sidebar: keep the users whose name contains the term, compared
    without regard to case. */
module UserSearch {
  import opened Js
  import opened Text
  import opened Wire

  /** `users.filter(user => user.username.toLowerCase().includes(term.toLowerCase()))`. */
  function FilterUsers(users: seq<UserInfo>, term: string): (r: seq<UserInfo>)
    ensures Subsequence(r, users)
    ensures forall u :: u in r ==> u in users && MatchesTerm(u.username, term)
    ensures forall i :: 0 <= i < |users| && MatchesTerm(users[i].username, term) ==> users[i] in r
    ensures forall u :: multiset(r)[u] == if MatchesTerm(u.username, term) then multiset(users)[u] else 0
  {
    Filter(users, (u: UserInfo) => MatchesTerm(u.username, term))
  }

  /** An empty search keeps every user, and upper and lower case in the
      term select the same users. */
  lemma FilterUsersTerm(users: seq<UserInfo>, term: string)
    ensures FilterUsers(users, "") == users
    ensures FilterUsers(users, ToLower(term)) == FilterUsers(users, term)
  {
    forall i | 0 <= i < |users| ensures MatchesTerm(users[i].username, "") {
      IncludesEmpty(ToLower(users[i].username));
    }
    FilterAll(users, (u: UserInfo) => MatchesTerm(u.username, ""));
    forall i | 0 <= i < |users|
      ensures MatchesTerm(users[i].username, ToLower(term)) == MatchesTerm(users[i].username, term)
    {
      MatchesTermCaseInsensitive(users[i].username, term);
    }
    FilterCongruent(users, (u: UserInfo) => MatchesTerm(u.username, ToLower(term)),
                    (u: UserInfo) => MatchesTerm(u.username, term));
  }
}
