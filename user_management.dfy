// The admin list of users: profiles merged with the admin role, the two
// per-user switches (admin, resident) and the search filter.
module UserManagement {
  import opened Wrappers
  import opened Text
  import opened Lists

  /** The profile columns the list loads. */
  datatype ProfileRow = ProfileRow(id: string, fullName: Option<string>, phoneNumber: Option<string>, isResident: bool)

  datatype UserWithRole = UserWithRole(
    id: string, fullName: Option<string>, phoneNumber: Option<string>, isResident: bool, isAdmin: bool)

  /** usersWithRoles: each profile in order, marked admin when its id has the admin role. */
  function MergeRoles(profiles: seq<ProfileRow>, adminIds: set<string>): (r: seq<UserWithRole>)
    ensures |r| == |profiles|
    ensures forall i :: 0 <= i < |r| ==>
      var p := profiles[i];
      r[i].id == p.id && r[i].fullName == p.fullName && r[i].phoneNumber == p.phoneNumber
      && r[i].isResident == p.isResident && (r[i].isAdmin <==> p.id in adminIds)
  {
    seq(|profiles|, i requires 0 <= i < |profiles| =>
      var p := profiles[i];
      UserWithRole(p.id, p.fullName, p.phoneNumber, p.isResident, p.id in adminIds))
  }

  /** The local update after a role change: the matching user gets the flag, no one else changes. */
  function SetAdmin(users: seq<UserWithRole>, userId: string, value: bool): (r: seq<UserWithRole>)
    ensures |r| == |users|
    ensures forall i :: 0 <= i < |r| ==>
      r[i] == if users[i].id == userId then users[i].(isAdmin := value) else users[i]
  {
    seq(|users|, i requires 0 <= i < |users| =>
      if users[i].id == userId then users[i].(isAdmin := value) else users[i])
  }

  /** The local update after a residency change. */
  function SetResident(users: seq<UserWithRole>, userId: string, value: bool): (r: seq<UserWithRole>)
    ensures |r| == |users|
    ensures forall i :: 0 <= i < |r| ==>
      r[i] == if users[i].id == userId then users[i].(isResident := value) else users[i]
  {
    seq(|users|, i requires 0 <= i < |users| =>
      if users[i].id == userId then users[i].(isResident := value) else users[i])
  }

  /** Switching a user's admin flag twice, from the value shown, restores the list. */
  lemma SetAdminTwice(users: seq<UserWithRole>, userId: string, current: bool)
    requires forall i :: 0 <= i < |users| && users[i].id == userId ==> users[i].isAdmin == current
    ensures SetAdmin(SetAdmin(users, userId, !current), userId, current) == users
  {
    var r := SetAdmin(SetAdmin(users, userId, !current), userId, current);
    forall i | 0 <= i < |users| ensures r[i] == users[i] {
    }
  }

  /** After the role change the merged list agrees with the role set changed the same way. */
  lemma SetAdminMatchesRoles(profiles: seq<ProfileRow>, adminIds: set<string>, userId: string)
    ensures SetAdmin(MergeRoles(profiles, adminIds), userId, userId !in adminIds)
         == MergeRoles(profiles, if userId in adminIds then adminIds - {userId} else adminIds + {userId})
  {
    var a := SetAdmin(MergeRoles(profiles, adminIds), userId, userId !in adminIds);
    var b := MergeRoles(profiles, if userId in adminIds then adminIds - {userId} else adminIds + {userId});
    forall i | 0 <= i < |profiles| ensures a[i] == b[i] {
    }
  }

  /** The search test: the lower-cased name contains the lower-cased query, or the phone contains it. */
  predicate MatchesQuery(u: UserWithRole, query: string)
  {
    (u.fullName.Some? && Contains(ToLower(u.fullName.value), query))
    || (u.phoneNumber.Some? && Contains(u.phoneNumber.value, query))
  }

  /** filteredUsers: everyone for an empty search, otherwise the matching users in list order. */
  function FilteredUsers(users: seq<UserWithRole>, search: string): (r: seq<UserWithRole>)
    ensures search == "" ==> r == users
    ensures search != "" ==>
      IsSubsequence(r, users)
      && (forall i :: 0 <= i < |r| ==> r[i] in users && MatchesQuery(r[i], ToLower(search)))
      && (forall i :: 0 <= i < |users| && MatchesQuery(users[i], ToLower(search)) ==> users[i] in r)
  {
    if search == "" then users
    else
      var query := ToLower(search);
      Keep(users, u => MatchesQuery(u, query))
  }

  /** A search for a phone fragment written in digits finds every user whose phone holds it. */
  lemma PhoneSearchFinds(users: seq<UserWithRole>, digits: string, i: nat)
    requires digits != [] && AllDigits(digits) && i < |users|
    requires users[i].phoneNumber.Some? && Contains(users[i].phoneNumber.value, digits)
    ensures users[i] in FilteredUsers(users, digits)
  {
    assert ToLower(digits) == digits by {
      forall k | 0 <= k < |digits| ensures ToLower(digits)[k] == digits[k] {
        assert IsDigit(digits[k]);
      }
    }
  }

  /** The write a role switch issues. */
  datatype RoleWrite = DeleteAdminRole(userId: string) | InsertAdminRole(userId: string)

  class UserManagementScreen {
    var users: seq<UserWithRole>
    var updating: Option<string>
    var searchQuery: string

    constructor ()
      ensures users == [] && updating.None? && searchQuery == ""
    {
      users := [];
      updating := None;
      searchQuery := "";
    }

    /** fetchUsers: a failed load keeps the list shown. */
    method Fetched(response: Result<(seq<ProfileRow>, set<string>), string>)
      modifies this`users
      ensures response.Success? ==> users == MergeRoles(response.value.0, response.value.1)
      ensures response.Failure? ==> users == old(users)
    {
      if response.Success? {
        users := MergeRoles(response.value.0, response.value.1);
      }
    }

    /** toggleAdminRole: the role row is deleted or inserted; the list changes only when that succeeds. */
    method ToggleAdminRole(userId: string, currentIsAdmin: bool, writeError: Option<string>) returns (w: RoleWrite)
      modifies this`users, this`updating
      ensures w == if currentIsAdmin then DeleteAdminRole(userId) else InsertAdminRole(userId)
      ensures writeError.None? ==> users == SetAdmin(old(users), userId, !currentIsAdmin)
      ensures writeError.Some? ==> users == old(users)
      ensures updating.None?
    {
      updating := Some(userId);
      w := if currentIsAdmin then DeleteAdminRole(userId) else InsertAdminRole(userId);
      if writeError.None? {
        users := SetAdmin(users, userId, !currentIsAdmin);
      }
      updating := None;
    }

    /** toggleResidentStatus: the profile is updated to the opposite value; the list follows on success. */
    method ToggleResidentStatus(userId: string, currentIsResident: bool, writeError: Option<string>) returns (newValue: bool)
      modifies this`users, this`updating
      ensures newValue == !currentIsResident
      ensures writeError.None? ==> users == SetResident(old(users), userId, newValue)
      ensures writeError.Some? ==> users == old(users)
      ensures updating.None?
    {
      updating := Some(userId);
      newValue := !currentIsResident;
      if writeError.None? {
        users := SetResident(users, userId, newValue);
      }
      updating := None;
    }
  }
}
