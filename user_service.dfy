/** Authentication and group membership of users
    (watchmen/auth/service/user.py).

    The storage calls (`load_user_by_name`, `pull_update`,
    `get_user_group_list_by_ids`, `update_user_group_storage`) and the
    password check `verify_password` are not part of this model: the lookups
    are parameters, and the calls that write are recorded, in order, in a
    storage log. */
module UserService {
  import opened Common

  /** `User`, reduced to the fields these operations read. */
  datatype User = User(userId: int, name: string, password: Option<string>, groupIds: seq<string>)

  /** `HTTP_401_UNAUTHORIZED`. */
  const Unauthorized401: int := 401

  /** What `authenticate` does: return the user, or raise `HTTPException`
      with a status code. */
  datatype AuthResult = Authenticated(user: User) | HttpError(statusCode: int)

  /** `authenticate`: the user stored under `username`, provided the password
      verifies against the stored one; 401 when there is no such user or the
      password does not verify. */
  function Authenticate(
    username: string,
    password: string,
    loadUserByName: string -> Option<User>,
    verifyPassword: (string, Option<string>) -> bool): (r: AuthResult)
    ensures r.Authenticated? <==>
      loadUserByName(username).Some? && verifyPassword(password, loadUserByName(username).value.password)
    ensures r.Authenticated? ==> r.user == loadUserByName(username).value
    ensures r.HttpError? ==> r.statusCode == Unauthorized401
  {
    match loadUserByName(username)
    case None => HttpError(Unauthorized401)
    case Some(user) =>
      if verifyPassword(password, user.password) then Authenticated(user)
      else HttpError(Unauthorized401)
  }

  /** The state of one user group. */
  datatype GroupState = GroupState(userGroupId: string, name: string, userIds: seq<int>)

  /** `UserGroup`: a group as fetched from storage; its member list is
      updated in place. */
  class UserGroup {
    var userGroupId: string
    var name: string
    var userIds: seq<int>

    constructor (userGroupId: string, name: string, userIds: seq<int>)
      ensures State() == GroupState(userGroupId, name, userIds)
    {
      this.userGroupId := userGroupId;
      this.name := name;
      this.userIds := userIds;
    }

    function State(): GroupState
      reads this
    {
      GroupState(userGroupId, name, userIds)
    }
  }

  /** One storage call, with what it was given. */
  datatype StorageCall =
    | PullUpdate(userId: int)
    | GetUserGroupListByIds(groupIds: seq<string>)
    | UpdateUserGroup(group: GroupState)

  /** The storage calls made, in order. */
  class StorageLog {
    var calls: seq<StorageCall>

    constructor ()
      ensures calls == []
    {
      calls := [];
    }
  }

  /** How often `x` occurs in `s`. */
  function Occurrences(s: seq<int>, x: int): nat
  {
    multiset(s)[x]
  }

  /** A member list once the user is in it. */
  function WithMember(userIds: seq<int>, userId: int): seq<int>
  {
    if userId in userIds then userIds else userIds + [userId]
  }

  /** The user is a member afterwards: the list is unchanged when the user
      already was; otherwise the old members keep their order and the user
      follows them, occurring exactly once. */
  lemma WithMemberAppendsOnce(userIds: seq<int>, userId: int)
    ensures var r := WithMember(userIds, userId);
      && userId in r
      && (userId in userIds ==> r == userIds)
      && (userId !in userIds ==>
            |r| == |userIds| + 1 && r[..|userIds|] == userIds && r[|userIds|] == userId && Occurrences(r, userId) == 1)
  {
    if userId !in userIds {
      assert (userIds + [userId])[..|userIds|] == userIds;
    }
  }

  /** The group state once the user is a member. */
  function Joined(group: GroupState, userId: int): GroupState
  {
    group.(userIds := WithMember(group.userIds, userId))
  }

  /** The groups once the user is a member of each. */
  function AllJoined(groups: seq<GroupState>, userId: int): (r: seq<GroupState>)
    ensures |r| == |groups|
    ensures forall i {:trigger r[i]} :: 0 <= i < |groups| ==> r[i] == Joined(groups[i], userId)
  {
    seq(|groups|, i requires 0 <= i < |groups| => Joined(groups[i], userId))
  }

  /** The writes of the sync loop over the first `n` groups: one per group
      that lacked the user, in list order, each carrying the group with the
      user added. */
  function Writes(groups: seq<GroupState>, userId: int, n: nat): seq<StorageCall>
    requires n <= |groups|
  {
    if n == 0 then []
    else
      Writes(groups, userId, n - 1) + WriteFor(groups[n - 1], userId)
  }

  /** The write the sync loop makes for one group: none when the user is
      already a member, else the group with the user added. */
  function WriteFor(group: GroupState, userId: int): seq<StorageCall>
  {
    if userId in group.userIds then [] else [UpdateUserGroup(Joined(group, userId))]
  }

  /** The states of the fetched groups. */
  function States(groups: seq<UserGroup>): (r: seq<GroupState>)
    reads set g | g in groups
    ensures |r| == |groups|
    ensures forall i {:trigger r[i]} :: 0 <= i < |groups| ==> r[i] == groups[i].State()
  {
    if groups == [] then [] else [groups[0].State()] + States(groups[1..])
  }

  /** `sync_user_to_user_groups`: `pull_update` on the user's id, the fetch of
      the user's groups (whose result is `userGroups`: one object per group
      document), then the membership loop. */
  method SyncUserToUserGroups(user: User, userGroups: seq<UserGroup>, log: StorageLog)
    requires forall i, j :: 0 <= i < |userGroups| && 0 <= j < |userGroups| && i != j ==> userGroups[i] != userGroups[j]
    modifies log, set g | g in userGroups
    ensures States(userGroups) == AllJoined(old(States(userGroups)), user.userId)
    ensures log.calls == old(log.calls) + [PullUpdate(user.userId), GetUserGroupListByIds(user.groupIds)]
      + Writes(old(States(userGroups)), user.userId, |userGroups|)
  {
    ghost var before := States(userGroups);
    log.calls := log.calls + [PullUpdate(user.userId), GetUserGroupListByIds(user.groupIds)];
    assert States(userGroups) == before;
    JoinAll(user.userId, userGroups, log, before);
    assert forall j :: 0 <= j < |userGroups| ==> States(userGroups)[j] == AllJoined(before, user.userId)[j];
    assert States(userGroups) == AllJoined(before, user.userId);
  }

  /** The `for user_group` loop: group by group, the user is appended where
      missing and that group alone is written back. `before` is the state of
      the groups as fetched. */
  method JoinAll(userId: int, userGroups: seq<UserGroup>, log: StorageLog, ghost before: seq<GroupState>)
    requires forall i, j :: 0 <= i < |userGroups| && 0 <= j < |userGroups| && i != j ==> userGroups[i] != userGroups[j]
    requires |before| == |userGroups|
    requires forall j :: 0 <= j < |userGroups| ==> userGroups[j].State() == before[j]
    modifies log, set g | g in userGroups
    ensures forall j :: 0 <= j < |userGroups| ==> userGroups[j].State() == Joined(before[j], userId)
    ensures log.calls == old(log.calls) + Writes(before, userId, |userGroups|)
  {
    var i := 0;
    while i < |userGroups|
      invariant 0 <= i <= |userGroups|
      invariant forall j :: 0 <= j < |userGroups| ==>
        userGroups[j].State() == if j < i then Joined(before[j], userId) else before[j]
      invariant log.calls == old(log.calls) + Writes(before, userId, i)
    {
      WritesStep(old(log.calls), before, userId, i);
      JoinGroup(userId, userGroups[i], log);
      i := i + 1;
    }
  }

  /** One more group adds its own write to the end of the log. */
  lemma WritesStep(start: seq<StorageCall>, groups: seq<GroupState>, userId: int, i: nat)
    requires i < |groups|
    ensures start + Writes(groups, userId, i + 1) == (start + Writes(groups, userId, i)) + WriteFor(groups[i], userId)
  {
  }

  /** The body of the sync loop for one group: append the user if missing,
      and then write that group back. */
  method JoinGroup(userId: int, userGroup: UserGroup, log: StorageLog)
    modifies userGroup, log
    ensures userGroup.State() == Joined(old(userGroup.State()), userId)
    ensures log.calls == old(log.calls) + WriteFor(old(userGroup.State()), userId)
  {
    if userId !in userGroup.userIds {
      userGroup.userIds := userGroup.userIds + [userId];
      log.calls := log.calls + [UpdateUserGroup(userGroup.State())];
    }
  }

  /** After the sync every group has the user as a member, a group that
      already had the user is unchanged, and nothing but member lists
      changes. */
  lemma JoinedGroupsContainUser(groups: seq<GroupState>, userId: int)
    ensures forall i :: 0 <= i < |groups| ==>
      var g := AllJoined(groups, userId)[i];
      && userId in g.userIds
      && g.userGroupId == groups[i].userGroupId && g.name == groups[i].name
      && (userId in groups[i].userIds ==> g == groups[i])
  {
  }

  /** Exactly the groups that lacked the user are written back: no write at
      all when every group had the user, and never more writes than
      groups. */
  lemma {:induction false} WritesOnlyForLacking(groups: seq<GroupState>, userId: int, n: nat)
    requires n <= |groups|
    ensures |Writes(groups, userId, n)| <= n
    ensures Writes(groups, userId, n) == [] <==> forall i :: 0 <= i < n ==> userId in groups[i].userIds
  {
    if n > 0 {
      WritesOnlyForLacking(groups, userId, n - 1);
      var last := WriteFor(groups[n - 1], userId);
      assert |last| <= 1 && (last == [] <==> userId in groups[n - 1].userIds);
      assert |Writes(groups, userId, n)| == |Writes(groups, userId, n - 1)| + |last|;
    }
  }

  /** A write of a group whose member list ends with the user, who occurs
      in it exactly once. */
  predicate JoinedWrite(call: StorageCall, userId: int)
  {
    && call.UpdateUserGroup?
    && |call.group.userIds| > 0
    && call.group.userIds[|call.group.userIds| - 1] == userId
    && Occurrences(call.group.userIds, userId) == 1
  }

  /** The write for one group, if any, carries that group with the user
      just added. */
  lemma WriteForIsJoined(group: GroupState, userId: int)
    ensures forall k :: 0 <= k < |WriteFor(group, userId)| ==> JoinedWrite(WriteFor(group, userId)[k], userId)
  {
    WithMemberAppendsOnce(group.userIds, userId);
  }

  /** Every write carries a group that has just gained the user: its
      member list ends with the user, who occurs in it exactly once. */
  lemma {:induction false} WritesCarryJoinedGroups(groups: seq<GroupState>, userId: int, n: nat)
    requires n <= |groups|
    ensures forall k :: 0 <= k < |Writes(groups, userId, n)| ==> JoinedWrite(Writes(groups, userId, n)[k], userId)
  {
    if n > 0 {
      var prefix := Writes(groups, userId, n - 1);
      var last := WriteFor(groups[n - 1], userId);
      WritesCarryJoinedGroups(groups, userId, n - 1);
      WriteForIsJoined(groups[n - 1], userId);
      forall k | 0 <= k < |prefix + last|
        ensures JoinedWrite((prefix + last)[k], userId)
      {
        if k < |prefix| {
          assert (prefix + last)[k] == prefix[k];
        } else {
          assert (prefix + last)[k] == last[k - |prefix|];
        }
      }
    }
  }

  /** Syncing twice is syncing once: the second run changes no group and
      writes nothing back. */
  lemma SyncIsIdempotent(groups: seq<GroupState>, userId: int)
    ensures AllJoined(AllJoined(groups, userId), userId) == AllJoined(groups, userId)
    ensures Writes(AllJoined(groups, userId), userId, |groups|) == []
  {
    WritesOnlyForLacking(AllJoined(groups, userId), userId, |groups|);
  }
}
