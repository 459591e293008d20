/** The user list of the dashboard (src/pages/Dashboard.tsx): the
    case-insensitive search over username and e-mail, and the "N/A"
    placeholder for a missing wallet id or API key. */
module Dashboard {
  import opened Wrappers
  import Seqs

  datatype User = User(id: string, username: string, email: string, phone: string,
                       walletId: Option<string>, apiKey: Option<string>)

  /** `toLowerCase` on one character, for the ASCII letters. */
  function LowerChar(c: char): (r: char)
    ensures 'A' <= c <= 'Z' ==> r as int == c as int + 32
    ensures !('A' <= c <= 'Z') ==> r == c
  {
    if 'A' <= c <= 'Z' then (c as int + 32) as char else c
  }

  /** `toLowerCase`: every character lowered, the length kept. */
  function Lower(s: string): (r: string)
    ensures |r| == |s|
    ensures forall k | 0 <= k < |s| :: r[k] == LowerChar(s[k])
  {
    seq(|s|, k requires 0 <= k < |s| => LowerChar(s[k]))
  }

  /** `needle` occurs in `hay` starting at position `i`. */
  predicate OccursAt(hay: string, needle: string, i: nat) {
    i + |needle| <= |hay| && hay[i..i + |needle|] == needle
  }

  /** `hay.includes(needle)`: `needle` occurs in `hay` at some position. */
  predicate Includes(hay: string, needle: string) {
    exists i | 0 <= i <= |hay| :: OccursAt(hay, needle, i)
  }

  /** Every string includes the empty string, and itself. */
  lemma IncludesEmptyAndSelf(hay: string)
    ensures Includes(hay, "")
    ensures Includes(hay, hay)
  {
    assert OccursAt(hay, "", 0);
    assert OccursAt(hay, hay, 0);
  }

  /** The search predicate of the user list. */
  predicate MatchesQuery(user: User, query: string) {
    Includes(Lower(user.username), Lower(query)) || Includes(Lower(user.email), Lower(query))
  }

  /** `filteredUsers`. */
  function FilteredUsers(users: seq<User>, query: string): seq<User> {
    Seqs.Filter(u => MatchesQuery(u, query), users)
  }

  /** A user is listed iff the lowered query occurs in the lowered username or
      in the lowered e-mail; the listed users keep their order. */
  lemma FilteredUsersSpec(users: seq<User>, query: string)
    ensures forall u :: u in FilteredUsers(users, query) <==>
      u in users && (Includes(Lower(u.username), Lower(query)) || Includes(Lower(u.email), Lower(query)))
    ensures Seqs.IsSubsequence(FilteredUsers(users, query), users)
  {
    Seqs.FilterIsSubsequence(u => MatchesQuery(u, query), users);
  }

  /** An empty query lists every user. */
  lemma EmptyQueryKeepsAll(users: seq<User>)
    ensures FilteredUsers(users, "") == users
  {
    forall k | 0 <= k < |users| ensures MatchesQuery(users[k], "") {
      IncludesEmptyAndSelf(Lower(users[k].username));
    }
    Seqs.FilterKeepsAll(u => MatchesQuery(u, ""), users);
  }

  /** Two queries that differ only in the case of their letters list the same users. */
  lemma {:induction false} QueryCaseInsensitive(users: seq<User>, q1: string, q2: string)
    requires |q1| == |q2|
    requires forall k | 0 <= k < |q1| :: LowerChar(q1[k]) == LowerChar(q2[k])
    ensures FilteredUsers(users, q1) == FilteredUsers(users, q2)
  {
    assert Lower(q1) == Lower(q2);
    Seqs.FilterCongruent(u => MatchesQuery(u, q1), u => MatchesQuery(u, q2), users);
  }

  /** The text shown for a wallet id or API key: the value itself, or "N/A"
      when it is null or empty (`value || "N/A"`). */
  function DisplayOrNA(value: Option<string>): (shown: string)
    ensures shown != ""
    ensures value.Some? && value.value != "" ==> shown == value.value
    ensures value.None? || value.value == "" ==> shown == "N/A"
  {
    if value.Some? && value.value != "" then value.value else "N/A"
  }
}
