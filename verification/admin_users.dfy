/**
 * The user administration page (nextjs/pages/admin/users.js): the fetched
 * list sorted in place by id, the replace-on-update and remove-on-delete
 * list updates behind their guards, the search over name and e-mail, and
 * the status label.
 */
module AdminUsers {
  import opened Base
  import Text
  import Lists

  /** A user as the users route returns it. */
  datatype User = User(userId: int, username: string, email: string, status: int)

  /** Ascending by `user_id`. */
  ghost predicate SortedById(s: seq<User>) {
    forall i, j :: 0 <= i < j < |s| ==> s[i].userId <= s[j].userId
  }

  /** `a[0..n)` is ascending by id. */
  ghost predicate PrefixSorted(a: array<User>, n: int)
    reads a
  {
    forall k, l :: 0 <= k < l < n && l < a.Length ==> a[k].userId <= a[l].userId
  }

  /**
   * `data.sort((a, b) => a.user_id - b.user_id)`: the fetched array
   * sorted in place, here by insertion with adjacent swaps.
   */
  method SortById(a: array<User>)
    modifies a
    ensures SortedById(a[..])
    ensures multiset(a[..]) == multiset(old(a[..]))
  {
    for i := 0 to a.Length
      invariant PrefixSorted(a, i)
      invariant multiset(a[..]) == multiset(old(a[..]))
    {
      SinkInto(a, i);
    }
  }

  /** One insertion step: moves `a[i]` left past every larger id, so that
      the sorted prefix grows by one. */
  method SinkInto(a: array<User>, i: int)
    requires 0 <= i < a.Length && PrefixSorted(a, i)
    modifies a
    ensures PrefixSorted(a, i + 1)
    ensures multiset(a[..]) == multiset(old(a[..]))
  {
    var j := i;
    while j > 0 && a[j - 1].userId > a[j].userId
      invariant 0 <= j <= i
      invariant forall k, l :: 0 <= k < l <= i && k != j && l != j ==> a[k].userId <= a[l].userId
      invariant forall l :: j < l <= i ==> a[j].userId < a[l].userId
      invariant multiset(a[..]) == multiset(old(a[..]))
    {
      Swap(a, j - 1, j);
      j := j - 1;
    }
  }

  /** Exchanges two entries of the array. */
  method Swap(a: array<User>, i: int, j: int)
    requires 0 <= i < a.Length && 0 <= j < a.Length
    modifies a
    ensures a[i] == old(a[j]) && a[j] == old(a[i])
    ensures forall k :: 0 <= k < a.Length && k != i && k != j ==> a[k] == old(a[k])
    ensures multiset(a[..]) == multiset(old(a[..]))
  {
    a[i], a[j] := a[j], a[i];
  }

  /** The list after a successful update: every entry with the updated
      user's id replaced by the server's copy. */
  function ApplyUpdate(users: seq<User>, updated: User): (r: seq<User>)
    ensures |r| == |users|
    ensures forall k :: 0 <= k < |users| ==>
      r[k] == if users[k].userId == updated.userId then updated else users[k]
  {
    seq(|users|, k requires 0 <= k < |users| =>
      if users[k].userId == updated.userId then updated else users[k])
  }

  /** Updating keeps the list ordered by id, and updating twice with the
      same user changes nothing more. */
  lemma UpdateKeepsOrder(users: seq<User>, updated: User)
    requires SortedById(users)
    ensures SortedById(ApplyUpdate(users, updated))
    ensures ApplyUpdate(ApplyUpdate(users, updated), updated) == ApplyUpdate(users, updated)
  {
  }

  /** The list after a successful delete: the entries with the deleted id
      gone, the rest in order. */
  function RemoveUser(users: seq<User>, userId: int): (r: seq<User>)
    ensures Lists.IsSubseq(r, users)
    ensures forall u :: u in r ==> u.userId != userId
    ensures forall u :: u in users && u.userId != userId ==> multiset(r)[u] == multiset(users)[u]
  {
    Lists.Filter(users, (u: User) => u.userId != userId)
  }

  /** Deleting a user after updating it leaves the same list as deleting
      it straight away. */
  lemma {:induction false} RemoveAfterUpdate(users: seq<User>, updated: User)
    ensures RemoveUser(ApplyUpdate(users, updated), updated.userId) == RemoveUser(users, updated.userId)
  {
    if users != [] {
      RemoveAfterUpdate(users[1..], updated);
      assert ApplyUpdate(users, updated)[1..] == ApplyUpdate(users[1..], updated);
    }
  }

  /** `handleEditSubmit`: nothing happens with no user being edited; the
      server's answer, when the request succeeds, replaces the entry. */
  function EditSubmit(users: seq<User>, editUser: Option<User>, response: Option<User>): (r: seq<User>)
    ensures editUser.None? || response.None? ==> r == users
    ensures editUser.Some? && response.Some? ==> r == ApplyUpdate(users, response.value)
  {
    if editUser.None? then users
    else match response
      case None => users
      case Some(updated) => ApplyUpdate(users, updated)
  }

  /** JavaScript's truthiness of the selected id: null and 0 are false. */
  predicate Truthy(userToDelete: Option<int>)
    ensures Truthy(userToDelete) ==> userToDelete.Some?
    ensures userToDelete == Some(0) ==> !Truthy(userToDelete)
    ensures userToDelete.Some? && userToDelete.value != 0 ==> Truthy(userToDelete)
  {
    userToDelete.Some? && userToDelete.value != 0
  }

  /** `handleDeleteConfirm`: nothing happens with no user selected (or the
      falsy id 0) or when the request fails. */
  function DeleteConfirm(users: seq<User>, userToDelete: Option<int>, succeeded: bool): (r: seq<User>)
    ensures !Truthy(userToDelete) || !succeeded ==> r == users
    ensures Truthy(userToDelete) && succeeded ==>
      forall u :: u in r ==> u.userId != userToDelete.value
    ensures Truthy(userToDelete) && succeeded ==> r == RemoveUser(users, userToDelete.value)
  {
    if !Truthy(userToDelete) || !succeeded then users else RemoveUser(users, userToDelete.value)
  }

  /** The search predicate: the name or the e-mail contains the query,
      ignoring case. */
  predicate UserMatches(query: string, u: User) {
    Text.Matches(u.username, query) || Text.Matches(u.email, query)
  }

  /** `filteredUsers`: the users matching the search, in order. */
  function SearchUsers(users: seq<User>, query: string): (r: seq<User>)
    ensures Lists.IsSubseq(r, users)
    ensures forall u :: u in r ==> Text.Matches(u.username, query) || Text.Matches(u.email, query)
    ensures forall u :: u in users ==>
      multiset(r)[u] == if UserMatches(query, u) then multiset(users)[u] else 0
  {
    Lists.Filter(users, u => UserMatches(query, u))
  }

  /** The id as a sort key. */
  function IdKey(u: User): Lists.Key {
    Lists.Num(u.userId as real)
  }

  lemma SortedByIdAsKey(s: seq<User>)
    ensures SortedById(s) <==> Lists.SortedByKey(s, IdKey, false)
  {
  }

  /** Searching a list sorted by id leaves it sorted by id. */
  lemma SearchKeepsOrder(users: seq<User>, query: string)
    requires SortedById(users)
    ensures SortedById(SearchUsers(users, query))
  {
    SortedByIdAsKey(users);
    Lists.FilterKeepsSorted(users, u => UserMatches(query, u), IdKey, false);
    SortedByIdAsKey(SearchUsers(users, query));
  }

  /** The status column. */
  function StatusLabel(status: int): (text: string)
    ensures text == "Admin" <==> status == 1
    ensures text == "Admin" || text == "User"
  {
    if status == 1 then "Admin" else "User"
  }
}
