/** The client-side bookkeeping of the user action creators (webapp/actions/user_actions.jsx):
    which remote calls an action issues, with which arguments, and which of the caller's
    callbacks fires for a given reply.

    The Flux stores and Redux selectors the actions read are an immutable snapshot (`Stores`);
    PreferenceStore, which loadNewDMIfNeeded and loadNewGMIfNeeded write, is a class. Every
    remote call an action issues is returned, in issue order, as a `Call` value; what a remote
    call resolves with is a parameter (`Reply`), and the callback it leads to is a `Fired` value. */
module UserActions {
  import opened Js

  type Id = string

  // ---------------------------------------------------------------- entities

  datatype Profile = Profile(id: Id)

  /** Constants.OPEN_CHANNEL, PRIVATE_CHANNEL, DM_CHANNEL, GM_CHANNEL. */
  datatype ChannelType = Open | Private | Direct | Group

  datatype Channel = Channel(id: Id, name: string, kind: ChannelType, totalMsgCount: int)

  /** ChannelStore.getMyMember(channelId): the current user's membership record. */
  datatype ChannelMember = ChannelMember(mentionCount: int, msgCount: int)

  /** Preferences.CATEGORY_DIRECT_CHANNEL_SHOW, CATEGORY_GROUP_CHANNEL_SHOW, CATEGORY_THEME. */
  datatype Category = DirectChannelShow | GroupChannelShow | Theme

  /** A record passed to savePreferences: {user_id, category, name, value}. */
  datatype Preference = Preference(userId: Id, category: Category, name: string, value: string)

  /** A record passed to deletePreferences: {user_id, category, name}. */
  datatype PreferenceKey = PreferenceKey(userId: Id, category: Category, name: string)

  /** A remote call (a Redux thunk or REST request) with its arguments. */
  datatype Call =
    | GetTeamMembersByIds(teamId: Id, userIds: seq<Id>)
    | GetChannelMembersForUserIds(channelId: Id, userIds: seq<Id>)
    | GetProfilesByIds(userIds: seq<Id>)
    | GetProfilesInChannel(channelId: Id, page: int, perPage: int)
    | GetChannelAndMyMember(channelId: Id)
    | SavePreferences(userId: Id, preferences: seq<Preference>)
    | DeletePreferences(userId: Id, keys: seq<PreferenceKey>)
    | UpdateMe(user: map<string, string>)
    | CheckMfaRedux(loginId: string)
    | Login(loginId: string, password: string, token: string, ldapOnly: bool)
    | LoginById(userId: Id, password: string, mfaToken: string)
    | GetProfiles(page: int, perPage: int)
    | GetProfilesWithoutTeam(page: int, perPage: int)
    | SearchProfiles(term: string, teamId: Id, notInTeam: bool)
    | GetStatus(userId: Id)
    | SetStatus(userId: Id, status: string)

  /** What the actions read from TeamStore, ChannelStore, UserStore and the Redux state. */
  datatype Stores = Stores(
    currentUserId: Id,                    // UserStore.getCurrentId()
    currentTeamId: Id,                    // TeamStore.getCurrentId()
    currentChannelId: Id,                 // ChannelStore.getCurrentId()
    teamMembers: map<Id, set<Id>>,        // TeamStore.hasActiveMemberInTeam(team, user)
    channelMembers: map<Id, set<Id>>,     // ChannelStore.hasActiveMemberInChannel(channel, user)
    profiles: set<Id>,                    // UserStore.hasProfile(user)
    channels: seq<Channel>,               // ChannelStore.getChannels()
    channelById: map<Id, Channel>,        // ChannelStore.get(channelId)
    myMembers: map<Id, ChannelMember>,    // ChannelStore.getMyMember(channelId)
    profileCounts: map<Id, nat>,          // UserStore.getProfileListInChannel(channelId).length
    dmChannelWith: map<Id, Channel>,      // ChannelStore.getByName(getDirectChannelName(me, user))
    userIdsInChannels: map<Id, set<Id>>   // Selectors.getUserIdsInChannels(getState())
  )

  function MembersOf(m: map<Id, set<Id>>, key: Id): set<Id>
  {
    if key in m then m[key] else {}
  }

  function ProfileCount(s: Stores, channelId: Id): nat
  {
    if channelId in s.profileCounts then s.profileCounts[channelId] else 0
  }

  /** The default parameter `teamId = TeamStore.getCurrentId()`. */
  function ResolveTeam(s: Stores, teamId: Option<Id>): Id
  {
    if teamId.Some? then teamId.value else s.currentTeamId
  }

  /** The default parameter `channelId = ChannelStore.getCurrentId()`. */
  function ResolveChannel(s: Stores, channelId: Option<Id>): Id
  {
    if channelId.Some? then channelId.value else s.currentChannelId
  }

  // ---------------------------------------------------------------- callbacks

  /** What a thunk's promise resolves with: null or undefined, another falsy value, or a truthy one. */
  datatype Reply<T> = Null | Falsy(value: T) | Truthy(value: T)

  /** getState().requests.<request>.error: its server_error_id, and an `id` field of its own if it has one. */
  datatype ServerError = ServerError(serverErrorId: string, ownId: Option<string>, message: string)

  /** The object {id: serverError.server_error_id, ...serverError} handed to `error`. */
  datatype ErrorArg = ErrorArg(id: string, serverError: ServerError)

  /** The argument a success callback receives. */
  datatype Arg<T> = NoArg | EmptyObject | False | Value(value: T) | NullArg

  /** Which of the caller's callbacks fires: none, `success`, `error`, the callbacks were handed on
      to an action creator in another file (with which of them the caller gave), or the call threw a
      TypeError. */
  datatype Fired<T> = NoCallback | Success(arg: Arg<T>) | Error(err: ErrorArg)
                    | Forwarded(success: bool, error: bool) | Threw

  /** The remote calls an action issues, in order, and the callback that fires. */
  datatype Outcome<T> = Outcome(calls: seq<Call>, fired: Fired<T>)

  /** The error object: the spread comes after `id`, so an `id` field of the server error wins. */
  function ErrorObject(e: ServerError): (r: ErrorArg)
    ensures r.serverError == e
    ensures e.ownId.None? ==> r.id == e.serverErrorId
    ensures e.ownId.Some? ==> r.id == e.ownId.value
  {
    ErrorArg(if e.ownId.Some? then e.ownId.value else e.serverErrorId, e)
  }

  /** The rule every data-returning wrapper follows:
      `if (data && success) success(data); else if (data == null && error) error({id: ...})`. */
  function OnReply<T>(reply: Reply<T>, hasSuccess: bool, hasError: bool, err: ServerError): (f: Fired<T>)
    ensures f.Success? <==> reply.Truthy? && hasSuccess
    ensures f.Error? <==> reply.Null? && hasError
    ensures f.Success? || f.Error? || f.NoCallback?
    ensures f.Success? ==> f.arg == Value(reply.value)
    ensures f.Error? ==> f.err == ErrorObject(err)
  {
    if reply.Truthy? && hasSuccess then Success(Value(reply.value))
    else if reply.Null? && hasError then Error(ErrorObject(err))
    else NoCallback
  }

  /** checkMfa's rule: `if (data != null && success) success(data); else if (data == null && error) ...`. */
  function OnNonNullReply<T>(reply: Reply<T>, hasSuccess: bool, hasError: bool, err: ServerError): (f: Fired<T>)
    ensures f.Success? <==> !reply.Null? && hasSuccess
    ensures f.Error? <==> reply.Null? && hasError
    ensures f.Success? || f.Error? || f.NoCallback?
    ensures f.Success? ==> f.arg == Value(reply.value)
    ensures f.Error? ==> f.err == ErrorObject(err)
  {
    if !reply.Null? && hasSuccess then Success(Value(reply.value))
    else if reply.Null? && hasError then Error(ErrorObject(err))
    else NoCallback
  }

  /** The two rules disagree exactly on a falsy non-null reply that a success callback is waiting for. */
  lemma NonNullRuleDiffersOnlyOnFalsy<T>(reply: Reply<T>, hasSuccess: bool, hasError: bool, err: ServerError)
    ensures OnNonNullReply(reply, hasSuccess, hasError, err) != OnReply(reply, hasSuccess, hasError, err)
            <==> reply.Falsy? && hasSuccess
  {
  }

  /** The rule of the search, autocomplete and paging wrappers: `if (success) success(data)` on
      whatever the thunk resolved with, null included; `error` is never called. */
  function OnAnyReply<T>(reply: Reply<T>, hasSuccess: bool): (f: Fired<T>)
    ensures f.Success? <==> hasSuccess
    ensures f.Success? || f.NoCallback?
    ensures f.Success? && reply.Null? ==> f.arg == NullArg
    ensures f.Success? && !reply.Null? ==> f.arg == Value(reply.value)
  {
    if !hasSuccess then NoCallback
    else if reply.Null? then Success(NullArg)
    else Success(Value(reply.value))
  }

  /** That rule and the shared one disagree exactly when a success callback meets a falsy or null
      reply, or when an error callback alone meets a null one. */
  lemma AnyReplyRuleDiffers<T>(reply: Reply<T>, hasSuccess: bool, hasError: bool, err: ServerError)
    ensures OnAnyReply(reply, hasSuccess) != OnReply(reply, hasSuccess, hasError, err)
            <==> (hasSuccess && !reply.Truthy?) || (!hasSuccess && reply.Null? && hasError)
  {
  }

  const MfaRequiredErrorId := "api.context.mfa_required.app_error"

  /** The login rule: success() on a truthy result; on a falsy one, when an error callback was
      given, success() if the server asked for an MFA token and error({id: ...}) otherwise. */
  function OnLoginReply(ok: bool, hasSuccess: bool, hasError: bool, err: ServerError): (f: Fired<()>)
    ensures f.Success? <==> hasSuccess && (ok || (hasError && err.serverErrorId == MfaRequiredErrorId))
    ensures f.Error? <==> !ok && hasError && err.serverErrorId != MfaRequiredErrorId
    ensures f.Success? || f.Error? || f.NoCallback?
    ensures f.Success? ==> f.arg == NoArg
    ensures f.Error? ==> f.err == ErrorObject(err)
  {
    if ok && hasSuccess then Success(NoArg)
    else if !ok && hasError then
      if err.serverErrorId == MfaRequiredErrorId then
        if hasSuccess then Success(NoArg) else NoCallback
      else Error(ErrorObject(err))
    else NoCallback
  }

  /** loadTeamMembersForProfiles: one getTeamMembersByIds call, callbacks by the shared rule. */
  function LoadTeamMembersForProfiles<T>(userIds: seq<Id>, teamId: Id, reply: Reply<T>,
                                         hasSuccess: bool, hasError: bool, err: ServerError): (out: Outcome<T>)
    ensures out.calls == [GetTeamMembersByIds(teamId, userIds)]
    ensures out.fired == OnReply(reply, hasSuccess, hasError, err)
  {
    Outcome([GetTeamMembersByIds(teamId, userIds)], OnReply(reply, hasSuccess, hasError, err))
  }

  /** updateUser: one updateMe call, callbacks by the shared rule. */
  function UpdateUser<T>(user: map<string, string>, reply: Reply<T>,
                         hasSuccess: bool, hasError: bool, err: ServerError): (out: Outcome<T>)
    ensures out.calls == [UpdateMe(user)]
    ensures out.fired == OnReply(reply, hasSuccess, hasError, err)
  {
    Outcome([UpdateMe(user)], OnReply(reply, hasSuccess, hasError, err))
  }

  /** checkMfa: with MFA switched off in the config, success(false) without any call (a TypeError
      when no success callback was given); otherwise one checkMfa call and the non-null rule. */
  function CheckMfa<T>(enableMultifactorAuthentication: string, loginId: string, reply: Reply<T>,
                       hasSuccess: bool, hasError: bool, err: ServerError): (out: Outcome<T>)
    ensures enableMultifactorAuthentication != "true" ==>
      out.calls == [] && out.fired == (if hasSuccess then Success(False) else Threw)
    ensures enableMultifactorAuthentication == "true" ==>
      out.calls == [CheckMfaRedux(loginId)] && out.fired == OnNonNullReply(reply, hasSuccess, hasError, err)
  {
    if enableMultifactorAuthentication != "true" then
      Outcome([], if hasSuccess then Success(False) else Threw)
    else
      Outcome([CheckMfaRedux(loginId)], OnNonNullReply(reply, hasSuccess, hasError, err))
  }

  /** loginById: one loginById call, callbacks by the login rule. */
  function LoginWithId(userId: Id, password: string, mfaToken: string, ok: bool,
                       hasSuccess: bool, hasError: bool, err: ServerError): (out: Outcome<()>)
    ensures out.calls == [LoginById(userId, password, mfaToken)]
    ensures out.fired == OnLoginReply(ok, hasSuccess, hasError, err)
  {
    Outcome([LoginById(userId, password, mfaToken)], OnLoginReply(ok, hasSuccess, hasError, err))
  }

  /** webLogin and webLoginByLdap: one login call (the latter LDAP-only), callbacks by the login rule. */
  function WebLogin(loginId: string, password: string, token: string, ldapOnly: bool, ok: bool,
                    hasSuccess: bool, hasError: bool, err: ServerError): (out: Outcome<()>)
    ensures out.calls == [Login(loginId, password, token, ldapOnly)]
    ensures out.fired == OnLoginReply(ok, hasSuccess, hasError, err)
  {
    Outcome([Login(loginId, password, token, ldapOnly)], OnLoginReply(ok, hasSuccess, hasError, err))
  }

  /** searchUsers and searchUsersNotInTeam: one searchProfiles call restricted to, or excluding,
      the team (by default the current one); success on any reply. */
  function SearchUsers<T>(s: Stores, term: string, teamId: Option<Id>, notInTeam: bool, reply: Reply<T>,
                          hasSuccess: bool): (out: Outcome<T>)
    ensures out.calls == [SearchProfiles(term, ResolveTeam(s, teamId), notInTeam)]
    ensures out.fired == OnAnyReply(reply, hasSuccess)
  {
    Outcome([SearchProfiles(term, ResolveTeam(s, teamId), notInTeam)], OnAnyReply(reply, hasSuccess))
  }

  /** loadProfiles and loadProfilesWithoutTeam: one page of profiles; success on any reply. */
  function LoadProfiles<T>(page: int, perPage: int, withoutTeam: bool, reply: Reply<T>, hasSuccess: bool): (out: Outcome<T>)
    ensures out.calls == [if withoutTeam then GetProfilesWithoutTeam(page, perPage) else GetProfiles(page, perPage)]
    ensures out.fired == OnAnyReply(reply, hasSuccess)
  {
    Outcome([if withoutTeam then GetProfilesWithoutTeam(page, perPage) else GetProfiles(page, perPage)],
            OnAnyReply(reply, hasSuccess))
  }

  /** A user's status as getStatus resolves it. */
  datatype UserStatus = UserStatus(status: string, manual: bool)

  /** autoResetStatus: the calls it makes, and whether its promise resolves (with `resolved`)
      or rejects (`threw`). */
  datatype StatusOutcome = StatusOutcome(calls: seq<Call>, resolved: Option<UserStatus>, threw: bool)

  /** autoResetStatus: getStatus for the current user (`fetched` is what that thunk resolves
      with, None for null on a failed request). A null status makes the read of `manual` throw,
      so the promise rejects after that one call. Otherwise, when the status was set by hand and
      the auto-reset preference (`autoReset`, what getBool reads, false by default) is on, one
      setStatus to 'online'; the promise resolves with the fetched status either way. */
  function AutoResetStatus(currentUserId: Id, fetched: Option<UserStatus>, autoReset: bool): (r: StatusOutcome)
    ensures r.threw <==> fetched.None?
    ensures r.threw ==> r.calls == [GetStatus(currentUserId)] && r.resolved.None?
    ensures !r.threw ==> r.resolved == fetched
    ensures |r.calls| >= 1 && r.calls[0] == GetStatus(currentUserId)
    ensures |r.calls| == 2 <==> fetched.Some? && fetched.value.manual && autoReset
    ensures |r.calls| <= 2
    ensures |r.calls| == 2 ==> r.calls[1] == SetStatus(currentUserId, "online")
  {
    match fetched
    case None => StatusOutcome([GetStatus(currentUserId)], None, true)
    case Some(status) =>
      if !status.manual then StatusOutcome([GetStatus(currentUserId)], fetched, false)
      else if autoReset then StatusOutcome([GetStatus(currentUserId), SetStatus(currentUserId, "online")], fetched, false)
      else StatusOutcome([GetStatus(currentUserId)], fetched, false)
  }

  // ---------------------------------------------------------------- missing-set loaders

  function IdsOf(profiles: seq<Profile>): (r: seq<Id>)
    ensures |r| == |profiles| && forall i :: 0 <= i < |profiles| ==> r[i] == profiles[i].id
  {
    seq(|profiles|, i requires 0 <= i < |profiles| => profiles[i].id)
  }

  /** `ids.filter((id) => !present.has(id))`. */
  function MissingIds(ids: seq<Id>, present: set<Id>): seq<Id>
    decreases |ids|
  {
    if ids == [] then []
    else
      var last := ids[|ids| - 1];
      MissingIds(ids[..|ids| - 1], present) + (if last in present then [] else [last])
  }

  /** The filter keeps each absent id as often as the input has it, and no present id. */
  lemma {:induction false} MissingIdsCounts(ids: seq<Id>, present: set<Id>)
    ensures forall x :: multiset(MissingIds(ids, present))[x] == if x in present then 0 else multiset(ids)[x]
  {
    if ids != [] {
      var init, last := ids[..|ids| - 1], ids[|ids| - 1];
      MissingIdsCounts(init, present);
      assert ids == init + [last];
      assert multiset(ids) == multiset(init) + multiset{last};
      var tail := if last in present then [] else [last];
      assert multiset(MissingIds(ids, present)) == multiset(MissingIds(init, present)) + multiset(tail);
    }
  }

  /** The filter keeps exactly the absent ids, each as often as the input has it. */
  lemma MissingIdsSpec(ids: seq<Id>, present: set<Id>)
    ensures forall x :: x in MissingIds(ids, present) <==> x in ids && x !in present
    ensures forall x :: multiset(MissingIds(ids, present))[x] == if x in present then 0 else multiset(ids)[x]
    ensures MissingIds(ids, present) == [] <==> forall i :: 0 <= i < |ids| ==> ids[i] in present
  {
    MissingIdsCounts(ids, present);
    var m := MissingIds(ids, present);
    forall x ensures x in m <==> x in ids && x !in present {
      assert x in m <==> multiset(m)[x] > 0;
      assert x in ids <==> multiset(ids)[x] > 0;
    }
    if m != [] {
      assert m[0] in m;
    }
  }

  /** Object.keys(membersToLoad) after the loaders' loop: every id of `ids` that `present` lacks,
      each once, in order of first occurrence. */
  function MembersToLoad(ids: seq<Id>, present: set<Id>): (r: seq<Id>)
    ensures forall x :: x in r <==> x in ids && x !in present
    ensures NoDuplicates(r)
    ensures r == [] <==> forall i :: 0 <= i < |ids| ==> ids[i] in present
  {
    MissingIdsSpec(ids, present);
    KeysInsertedAreTheSet(MissingIds(ids, present));
    KeysInserted(MissingIds(ids, present))
  }

  /** The loop shared by loadTeamMembersForProfilesList and loadChannelMembersForProfilesList:
      `membersToLoad[pid] = true` for each pid the store lacks, then `Object.keys(membersToLoad)`. */
  method CollectMembersToLoad(ids: seq<Id>, present: set<Id>) returns (list: seq<Id>)
    ensures list == MembersToLoad(ids, present)
  {
    list := [];
    var i := 0;
    while i < |ids|
      invariant 0 <= i <= |ids|
      invariant list == KeysInserted(MissingIds(ids[..i], present))
    {
      var pid := ids[i];
      assert ids[..i + 1][..i] == ids[..i];
      ghost var before := MissingIds(ids[..i], present);
      if pid !in present {
        assert MissingIds(ids[..i + 1], present) == before + [pid];
        assert (before + [pid])[..|before|] == before;
        if pid !in list {
          list := list + [pid];
        }
      } else {
        assert MissingIds(ids[..i + 1], present) == before + [];
        assert before + [] == before;
      }
      i := i + 1;
    }
    assert ids[..|ids|] == ids;
  }

  /** loadTeamMembersForProfilesList: a null profile list throws at `profiles.length`; when every
      profile is an active member of the team, success({}) and no call; otherwise exactly one
      getTeamMembersByIds for the ids that are not members. */
  method LoadTeamMembersForProfilesList<T>(s: Stores, profiles: Option<seq<Profile>>, teamId: Option<Id>,
                                           reply: Reply<T>, hasSuccess: bool, hasError: bool, err: ServerError)
    returns (out: Outcome<T>)
    ensures profiles.None? ==> out == Outcome([], Threw)
    ensures profiles.Some? ==>
      var ps := profiles.value;
      var team := ResolveTeam(s, teamId);
      var members := MembersOf(s.teamMembers, team);
      && |out.calls| <= 1
      && (out.calls == [] <==> forall i :: 0 <= i < |ps| ==> ps[i].id in members)
      && (out.calls == [] ==> out.fired == if hasSuccess then Success(EmptyObject) else NoCallback)
      && (out.calls != [] ==>
            out.calls[0] == GetTeamMembersByIds(team, MembersToLoad(IdsOf(ps), members))
            && out.fired == OnReply(reply, hasSuccess, hasError, err))
  {
    if profiles.None? {
      return Outcome([], Threw);
    }
    var team := ResolveTeam(s, teamId);
    var list := CollectMembersToLoad(IdsOf(profiles.value), MembersOf(s.teamMembers, team));
    if |list| == 0 {
      out := Outcome([], if hasSuccess then Success(EmptyObject) else NoCallback);
      return;
    }
    out := LoadTeamMembersForProfiles(list, team, reply, hasSuccess, hasError, err);
  }

  /** loadChannelMembersForProfilesList: the same gate against channel membership, and the same throw
      on a null list; the single getChannelMembersForUserIds call takes both callbacks along. */
  method LoadChannelMembersForProfilesList(s: Stores, profiles: Option<seq<Profile>>, channelId: Option<Id>,
                                           hasSuccess: bool, hasError: bool)
    returns (out: Outcome<()>)
    ensures profiles.None? ==> out == Outcome([], Threw)
    ensures profiles.Some? ==>
      var ps := profiles.value;
      var channel := ResolveChannel(s, channelId);
      var members := MembersOf(s.channelMembers, channel);
      && |out.calls| <= 1
      && (out.calls == [] <==> forall i :: 0 <= i < |ps| ==> ps[i].id in members)
      && (out.calls == [] ==> out.fired == if hasSuccess then Success(EmptyObject) else NoCallback)
      && (out.calls != [] ==>
            out.calls[0] == GetChannelMembersForUserIds(channel, MembersToLoad(IdsOf(ps), members))
            && out.fired == Forwarded(hasSuccess, hasError))
  {
    if profiles.None? {
      return Outcome([], Threw);
    }
    var channel := ResolveChannel(s, channelId);
    var list := CollectMembersToLoad(IdsOf(profiles.value), MembersOf(s.channelMembers, channel));
    if |list| == 0 {
      out := Outcome([], if hasSuccess then Success(EmptyObject) else NoCallback);
      return;
    }
    out := Outcome([GetChannelMembersForUserIds(channel, list)], Forwarded(hasSuccess, hasError));
  }

  /** loadChannelMembersForProfilesMap: the keys of the profile map that are not channel members,
      each once (in the map's iteration order, which the model leaves open), in one call. */
  method LoadChannelMembersForProfilesMap<P>(s: Stores, profiles: map<Id, P>, channelId: Option<Id>,
                                             hasSuccess: bool, hasError: bool)
    returns (out: Outcome<()>)
    ensures var channel := ResolveChannel(s, channelId);
      var members := MembersOf(s.channelMembers, channel);
      && |out.calls| <= 1
      && (out.calls == [] <==> profiles.Keys <= members)
      && (out.calls == [] ==> out.fired == if hasSuccess then Success(EmptyObject) else NoCallback)
      && (out.calls != [] ==>
            && out.calls[0].GetChannelMembersForUserIds?
            && out.calls[0].channelId == channel
            && (forall x :: x in out.calls[0].userIds <==> x in profiles && x !in members)
            && NoDuplicates(out.calls[0].userIds)
            && out.fired == Forwarded(hasSuccess, hasError))
  {
    var channel := ResolveChannel(s, channelId);
    var members := MembersOf(s.channelMembers, channel);
    var remaining := profiles.Keys;
    var list: seq<Id> := [];
    while remaining != {}
      invariant remaining <= profiles.Keys
      invariant forall x :: x in list <==> x in profiles && x !in remaining && x !in members
      invariant NoDuplicates(list)
      decreases |remaining|
    {
      var pid :| pid in remaining;
      if pid !in members {
        list := list + [pid];
      }
      remaining := remaining - {pid};
    }
    if |list| == 0 {
      assert forall x :: x in profiles ==> x in members;
      out := Outcome([], if hasSuccess then Success(EmptyObject) else NoCallback);
      return;
    }
    assert list[0] in profiles && list[0] !in members;
    out := Outcome([GetChannelMembersForUserIds(channel, list)], Forwarded(hasSuccess, hasError));
  }

  /** getMissingProfiles: no call when every id has a profile, otherwise one getProfilesByIds call
      with the ids lacking one, in input order and duplicates kept (see MissingIdsSpec). */
  function GetMissingProfiles(s: Stores, ids: seq<Id>): (calls: seq<Call>)
    ensures |calls| <= 1
    ensures calls == [] <==> forall i :: 0 <= i < |ids| ==> ids[i] in s.profiles
    ensures calls != [] ==> calls[0] == GetProfilesByIds(MissingIds(ids, s.profiles))
  {
    MissingIdsSpec(ids, s.profiles);
    var missingIds := MissingIds(ids, s.profiles);
    if missingIds == [] then [] else [GetProfilesByIds(missingIds)]
  }

  /** Once the fetched members have reached the store, the same load finds nothing missing. */
  lemma WarmedTeamLoadFindsNothing(s: Stores, profiles: seq<Profile>, team: Id)
    ensures var members := MembersOf(s.teamMembers, team);
      var fetched := MembersToLoad(IdsOf(profiles), members);
      var warmed := members + (set x | x in fetched);
      MembersToLoad(IdsOf(profiles), warmed) == []
  {
    var members := MembersOf(s.teamMembers, team);
    var ids := IdsOf(profiles);
    var fetched := MembersToLoad(ids, members);
    var warmed := members + (set x | x in fetched);
    forall i | 0 <= i < |ids| ensures ids[i] in warmed {
      assert ids[i] in ids;
    }
  }

  // ---------------------------------------------------------------- preferences

  /** PreferenceStore.getBool(category, name, default): a stored value reads as true exactly when it
      is 'true'; a missing one reads as the default. */
  function GetBool(entries: map<(Category, string), string>, category: Category, name: string, default: bool): bool
  {
    if (category, name) in entries then entries[(category, name)] == "true" else default
  }

  /** The record that marks a conversation shown: {user_id, category, name, value: 'true'}. */
  function ShowRecord(userId: Id, category: Category, name: string): (p: Preference)
    ensures p.value == "true"
  {
    Preference(userId, category, name, "true")
  }

  /** The preferences after `records` have been stored, one after the other. */
  function Stored(entries: map<(Category, string), string>, records: seq<Preference>): map<(Category, string), string>
    decreases |records|
  {
    if records == [] then entries
    else
      var r := records[|records| - 1];
      Stored(entries, records[..|records| - 1])[(r.category, r.name) := r.value]
  }

  /** Storing records that all say 'true' shows every name they mention and changes nothing else. */
  lemma {:induction false} StoredShows(entries: map<(Category, string), string>, records: seq<Preference>)
    requires forall r :: r in records ==> r.value == "true"
    ensures forall r :: r in records ==> GetBool(Stored(entries, records), r.category, r.name, false)
    ensures forall c, n :: (forall r :: r in records ==> (r.category, r.name) != (c, n)) ==>
              GetBool(Stored(entries, records), c, n, false) == GetBool(entries, c, n, false)
  {
    if records != [] {
      var init := records[..|records| - 1];
      assert records == init + [records[|records| - 1]];
      StoredShows(entries, init);
    }
  }

  /** PreferenceStore: the current user's preferences, keyed by (category, name). */
  class PreferenceStore {
    var entries: map<(Category, string), string>

    constructor (entries: map<(Category, string), string>)
      ensures this.entries == entries
    {
      this.entries := entries;
    }

    /** PreferenceStore.setPreference(category, name, value). */
    method SetPreference(category: Category, name: string, value: string)
      modifies this
      ensures entries == old(entries)[(category, name) := value]
    {
      entries := entries[(category, name) := value];
    }
  }

  function SaveIfAny(userId: Id, records: seq<Preference>): (calls: seq<Call>)
    ensures |calls| <= 1
    ensures calls != [] <==> records != []
    ensures calls != [] ==> calls[0] == SavePreferences(userId, records)
  {
    if records == [] then [] else [SavePreferences(userId, records)]
  }

  // ---------------------------------------------------------------- direct messages

  /** `channel.name.replace(UserStore.getCurrentId(), '').replace('__', '')`. */
  function Teammate(channelName: string, currentUserId: Id): Id
  {
    RemoveFirst(RemoveFirst(channelName, currentUserId), "__")
  }

  /** For a DM channel named `me + '__' + other` the teammate is `other`. */
  lemma TeammateWhenCurrentUserFirst(me: Id, other: Id)
    ensures Teammate(me + "__" + other, me) == other
  {
    var name := me + "__" + other;
    assert name == me + ("__" + other);
    RemoveFirstOfPrefix(me, "__" + other);
    assert RemoveFirst(name, me) == "__" + other;
    RemoveFirstOfPrefix("__", other);
  }

  /** For a DM channel named `other + '__' + me`, with ids of one length and without '_' (as server
      ids are), the teammate is `other` too. */
  lemma TeammateWhenCurrentUserSecond(me: Id, other: Id)
    requires |me| == |other|
    requires '_' !in me && '_' !in other
    ensures Teammate(other + "__" + me, me) == other
  {
    var name := other + "__" + me;
    var n := |other|;
    if me == other {
      assert name == me + ("__" + other);
      RemoveFirstOfPrefix(me, "__" + other);
      RemoveFirstOfPrefix("__", other);
    } else {
      assert OccursAt(name, me, n + 2) by { assert name[n + 2..n + 2 + |me|] == me; }
      OwnIdNotBeforeSeparator(me, other);
      assert IndexOf(name, me) == n + 2;
      var once := RemoveFirst(name, me);
      assert once == other + "__" by {
        assert name[..n + 2] == other + "__";
        assert name[n + 2 + |me|..] == [];
      }
      assert OccursAt(once, "__", n) by { assert once[n..n + 2] == "__"; }
      forall j | 0 <= j < n ensures !OccursAt(once, "__", j) {
        assert once[j] == other[j];
      }
      assert IndexOf(once, "__") == n;
      assert once[..n] == other;
    }
  }

  /** In `other + '__' + me`, with ids of one length and without '_', `me` does not start before
      the separator ends. */
  lemma OwnIdNotBeforeSeparator(me: Id, other: Id)
    requires |me| == |other| && me != other
    requires '_' !in me && '_' !in other
    ensures forall j :: 0 <= j < |other| + 2 ==> !OccursAt(other + "__" + me, me, j)
  {
    var name := other + "__" + me;
    var n := |other|;
    forall j | 0 <= j < n + 2 ensures !OccursAt(name, me, j) {
      if j == 0 {
        assert name[0..n] == other;
      } else if j <= n {
        assert name[n] == '_';
      } else {
        assert name[n + 1] == '_';
      }
    }
  }

  /** How one channel of ChannelStore.getChannels() takes part in loadProfilesForDM. */
  datatype DMStep = SkipDM | KeepDM(teammate: Id, newlyVisible: bool)

  /** A non-DM channel is skipped; so is a DM that is not shown and whose member record is missing
      or has no mentions. Any other DM keeps its teammate, and is newly shown when it was hidden. */
  function ClassifyDM(s: Stores, prefs: map<(Category, string), string>, c: Channel): (r: DMStep)
    ensures r.SkipDM? <==>
      c.kind != Direct
      || (!GetBool(prefs, DirectChannelShow, Teammate(c.name, s.currentUserId), false)
          && (c.id !in s.myMembers || s.myMembers[c.id].mentionCount == 0))
    ensures r.KeepDM? ==> r.teammate == Teammate(c.name, s.currentUserId)
    ensures r.KeepDM? ==> (r.newlyVisible <==> !GetBool(prefs, DirectChannelShow, r.teammate, false))
  {
    if c.kind != Direct then SkipDM
    else
      var teammate := Teammate(c.name, s.currentUserId);
      var isVisible := GetBool(prefs, DirectChannelShow, teammate, false);
      if !isVisible && (c.id !in s.myMembers || s.myMembers[c.id].mentionCount == 0) then SkipDM
      else KeepDM(teammate, !isVisible)
  }

  /** The three arrays loadProfilesForDM fills. */
  datatype DMPass = DMPass(newPreferences: seq<Preference>, profilesToLoad: seq<Id>, profileIds: seq<Id>)

  function DMPassOver(s: Stores, prefs: map<(Category, string), string>, chans: seq<Channel>): DMPass
    decreases |chans|
  {
    if chans == [] then DMPass([], [], [])
    else
      var p := DMPassOver(s, prefs, chans[..|chans| - 1]);
      match ClassifyDM(s, prefs, chans[|chans| - 1])
      case SkipDM => p
      case KeepDM(t, isNew) =>
        DMPass(p.newPreferences + (if isNew then [ShowRecord(s.currentUserId, DirectChannelShow, t)] else []),
               p.profilesToLoad + (if t in s.profiles then [] else [t]),
               p.profileIds + [t])
  }

  /** A pass collects the teammate of every DM it keeps, and nothing else. */
  lemma {:induction false} DMPassProfileIds(s: Stores, prefs: map<(Category, string), string>, chans: seq<Channel>)
    ensures forall t :: t in DMPassOver(s, prefs, chans).profileIds <==>
      exists c :: c in chans && ClassifyDM(s, prefs, c).KeepDM? && ClassifyDM(s, prefs, c).teammate == t
  {
    if chans != [] {
      var init, last := chans[..|chans| - 1], chans[|chans| - 1];
      DMPassProfileIds(s, prefs, init);
      assert chans == init + [last];
      var before := DMPassOver(s, prefs, init).profileIds;
      var after := DMPassOver(s, prefs, chans).profileIds;
      forall t ensures t in after <==>
        exists c :: c in chans && ClassifyDM(s, prefs, c).KeepDM? && ClassifyDM(s, prefs, c).teammate == t
      {
        if t in after {
          if t in before {
            var c :| c in init && ClassifyDM(s, prefs, c).KeepDM? && ClassifyDM(s, prefs, c).teammate == t;
            assert c in chans;
          } else {
            assert last in chans;
          }
        }
        if exists c :: c in chans && ClassifyDM(s, prefs, c).KeepDM? && ClassifyDM(s, prefs, c).teammate == t {
          var c :| c in chans && ClassifyDM(s, prefs, c).KeepDM? && ClassifyDM(s, prefs, c).teammate == t;
          if c in init {
            assert t in before;
          } else {
            assert c == last;
          }
        }
      }
    }
  }

  /** A pass makes a 'true' record for exactly the DMs it newly shows. */
  lemma {:induction false} DMPassNewPreferences(s: Stores, prefs: map<(Category, string), string>, chans: seq<Channel>)
    ensures forall r :: r in DMPassOver(s, prefs, chans).newPreferences <==>
      exists c :: c in chans && ClassifyDM(s, prefs, c).KeepDM? && ClassifyDM(s, prefs, c).newlyVisible
                  && r == ShowRecord(s.currentUserId, DirectChannelShow, ClassifyDM(s, prefs, c).teammate)
    ensures DMPassOver(s, prefs, chans).newPreferences == [] <==>
      forall c :: c in chans ==> !(ClassifyDM(s, prefs, c).KeepDM? && ClassifyDM(s, prefs, c).newlyVisible)
  {
    if chans != [] {
      var init, last := chans[..|chans| - 1], chans[|chans| - 1];
      DMPassNewPreferences(s, prefs, init);
      assert chans == init + [last];
      var before := DMPassOver(s, prefs, init).newPreferences;
      var after := DMPassOver(s, prefs, chans).newPreferences;
      forall r ensures r in after <==>
        exists c :: c in chans && ClassifyDM(s, prefs, c).KeepDM? && ClassifyDM(s, prefs, c).newlyVisible
                    && r == ShowRecord(s.currentUserId, DirectChannelShow, ClassifyDM(s, prefs, c).teammate)
      {
        if r in after {
          if r in before {
            var c :| c in init && ClassifyDM(s, prefs, c).KeepDM? && ClassifyDM(s, prefs, c).newlyVisible
                     && r == ShowRecord(s.currentUserId, DirectChannelShow, ClassifyDM(s, prefs, c).teammate);
            assert c in chans;
          } else {
            assert last in chans;
          }
        }
        if exists c :: c in chans && ClassifyDM(s, prefs, c).KeepDM? && ClassifyDM(s, prefs, c).newlyVisible
                       && r == ShowRecord(s.currentUserId, DirectChannelShow, ClassifyDM(s, prefs, c).teammate) {
          var c :| c in chans && ClassifyDM(s, prefs, c).KeepDM? && ClassifyDM(s, prefs, c).newlyVisible
                   && r == ShowRecord(s.currentUserId, DirectChannelShow, ClassifyDM(s, prefs, c).teammate);
          if c in init {
            assert r in before;
          } else {
            assert c == last;
          }
        }
      }
    }
  }

  /** A pass loads exactly the kept teammates that have no profile in the store. */
  lemma {:induction false} DMPassProfilesToLoad(s: Stores, prefs: map<(Category, string), string>, chans: seq<Channel>)
    ensures forall t :: t in DMPassOver(s, prefs, chans).profilesToLoad <==>
      t in DMPassOver(s, prefs, chans).profileIds && t !in s.profiles
  {
    if chans != [] {
      var init := chans[..|chans| - 1];
      DMPassProfilesToLoad(s, prefs, init);
    }
  }

  /** The DMs of `chans` a pass keeps, in channel order. */
  function KeptDMs(s: Stores, prefs: map<(Category, string), string>, chans: seq<Channel>): (r: seq<Channel>)
    decreases |chans|
    ensures |r| <= |chans|
    ensures forall c :: c in r ==> c in chans && ClassifyDM(s, prefs, c).KeepDM?
    ensures forall c :: c in chans && ClassifyDM(s, prefs, c).KeepDM? ==> c in r
  {
    if chans == [] then []
    else
      var last := chans[|chans| - 1];
      assert chans == chans[..|chans| - 1] + [last];
      KeptDMs(s, prefs, chans[..|chans| - 1]) + (if ClassifyDM(s, prefs, last).KeepDM? then [last] else [])
  }

  /** The DMs of `chans` a pass newly shows, in channel order. */
  function NewlyShownDMs(s: Stores, prefs: map<(Category, string), string>, chans: seq<Channel>): (r: seq<Channel>)
    decreases |chans|
    ensures |r| <= |chans|
    ensures forall c :: c in r ==> c in chans && ClassifyDM(s, prefs, c) == KeepDM(Teammate(c.name, s.currentUserId), true)
    ensures forall c :: c in chans && ClassifyDM(s, prefs, c) == KeepDM(Teammate(c.name, s.currentUserId), true) ==> c in r
  {
    if chans == [] then []
    else
      var last := chans[|chans| - 1];
      assert chans == chans[..|chans| - 1] + [last];
      NewlyShownDMs(s, prefs, chans[..|chans| - 1])
      + (if ClassifyDM(s, prefs, last) == KeepDM(Teammate(last.name, s.currentUserId), true) then [last] else [])
  }

  /** A pass has one teammate per kept DM, in channel order. */
  lemma {:induction false} DMPassProfileIdsInOrder(s: Stores, prefs: map<(Category, string), string>, chans: seq<Channel>)
    ensures var ids := DMPassOver(s, prefs, chans).profileIds; var kept := KeptDMs(s, prefs, chans);
      |ids| == |kept| && forall k :: 0 <= k < |kept| ==> ids[k] == Teammate(kept[k].name, s.currentUserId)
  {
    if chans != [] {
      var init, last := chans[..|chans| - 1], chans[|chans| - 1];
      DMPassProfileIdsInOrder(s, prefs, init);
      var ids0, kept0 := DMPassOver(s, prefs, init).profileIds, KeptDMs(s, prefs, init);
      if ClassifyDM(s, prefs, last).KeepDM? {
        assert DMPassOver(s, prefs, chans).profileIds == ids0 + [Teammate(last.name, s.currentUserId)];
        assert KeptDMs(s, prefs, chans) == kept0 + [last];
      } else {
        assert DMPassOver(s, prefs, chans).profileIds == ids0;
        assert KeptDMs(s, prefs, chans) == kept0;
      }
    }
  }

  /** A pass has one record per newly shown DM, in channel order. */
  lemma {:induction false} DMPassNewPreferencesInOrder(s: Stores, prefs: map<(Category, string), string>, chans: seq<Channel>)
    ensures var recs := DMPassOver(s, prefs, chans).newPreferences; var shown := NewlyShownDMs(s, prefs, chans);
      |recs| == |shown|
      && forall k :: 0 <= k < |shown| ==>
           recs[k] == ShowRecord(s.currentUserId, DirectChannelShow, Teammate(shown[k].name, s.currentUserId))
  {
    if chans != [] {
      var init, last := chans[..|chans| - 1], chans[|chans| - 1];
      DMPassNewPreferencesInOrder(s, prefs, init);
      var recs0, shown0 := DMPassOver(s, prefs, init).newPreferences, NewlyShownDMs(s, prefs, init);
      var t := Teammate(last.name, s.currentUserId);
      if ClassifyDM(s, prefs, last) == KeepDM(t, true) {
        assert DMPassOver(s, prefs, chans).newPreferences == recs0 + [ShowRecord(s.currentUserId, DirectChannelShow, t)];
        assert NewlyShownDMs(s, prefs, chans) == shown0 + [last];
      } else {
        assert DMPassOver(s, prefs, chans).newPreferences == recs0;
        assert NewlyShownDMs(s, prefs, chans) == shown0;
      }
    }
  }

  /** The first remote calls of loadProfilesForDM: one savePreferences with every new record, if any,
      then one getProfilesByIds with every teammate lacking a profile, if any. */
  function DMSidebarCalls(s: Stores, prefs: map<(Category, string), string>): seq<Call>
  {
    var p := DMPassOver(s, prefs, s.channels);
    SaveIfAny(s.currentUserId, p.newPreferences)
    + (if p.profilesToLoad == [] then [] else [GetProfilesByIds(p.profilesToLoad)])
  }

  /** Once a pass's records have reached PreferenceStore, a second pass records nothing new. */
  lemma DMPassRepeatRecordsNothing(s: Stores, prefs: map<(Category, string), string>)
    ensures var first := DMPassOver(s, prefs, s.channels);
      DMPassOver(s, Stored(prefs, first.newPreferences), s.channels).newPreferences == []
  {
    var first := DMPassOver(s, prefs, s.channels);
    var after := Stored(prefs, first.newPreferences);
    DMPassNewPreferences(s, prefs, s.channels);
    DMPassNewPreferences(s, after, s.channels);
    StoredShows(prefs, first.newPreferences);
    forall c | c in s.channels
      ensures !(ClassifyDM(s, after, c).KeepDM? && ClassifyDM(s, after, c).newlyVisible)
    {
      var t := Teammate(c.name, s.currentUserId);
      var r := ShowRecord(s.currentUserId, DirectChannelShow, t);
      if r in first.newPreferences {
        assert GetBool(after, DirectChannelShow, t, false);
      } else {
        assert forall q :: q in first.newPreferences ==> (q.category, q.name) != (DirectChannelShow, t);
        assert GetBool(after, DirectChannelShow, t, false) == GetBool(prefs, DirectChannelShow, t, false);
      }
    }
  }

  /** populateDMChannelsWithProfiles as it should behave: for each user id whose DM channel the store
      holds and whose channel profile set lacks it, one UserStore.saveUserIdInChannel(channel.id, id). */
  function DMChannelAdditions(s: Stores, userIds: seq<Id>): seq<(Id, Id)>
    decreases |userIds|
  {
    if userIds == [] then []
    else
      var rest := DMChannelAdditions(s, userIds[..|userIds| - 1]);
      var u := userIds[|userIds| - 1];
      if u in s.dmChannelWith && u !in MembersOf(s.userIdsInChannels, s.dmChannelWith[u].id)
      then rest + [(s.dmChannelWith[u].id, u)]
      else rest
  }

  lemma {:induction false} DMChannelAdditionsSpec(s: Stores, userIds: seq<Id>)
    ensures forall ch, u :: (ch, u) in DMChannelAdditions(s, userIds) <==>
      u in userIds && u in s.dmChannelWith && s.dmChannelWith[u].id == ch
      && u !in MembersOf(s.userIdsInChannels, ch)
  {
    if userIds != [] {
      var init := userIds[..|userIds| - 1];
      DMChannelAdditionsSpec(s, init);
      assert userIds == init + [userIds[|userIds| - 1]];
    }
  }

  /** The populate loop, with the `channel &&` guard applied before `channel.id` is read. */
  method PopulateDMChannelsWithProfiles(s: Stores, userIds: seq<Id>) returns (saved: seq<(Id, Id)>)
    ensures saved == DMChannelAdditions(s, userIds)
  {
    saved := [];
    var i := 0;
    while i < |userIds|
      invariant 0 <= i <= |userIds|
      invariant saved == DMChannelAdditions(s, userIds[..i])
    {
      assert userIds[..i + 1][..i] == userIds[..i];
      var u := userIds[i];
      if u in s.dmChannelWith {
        var channel := s.dmChannelWith[u];
        var profilesInChannel := MembersOf(s.userIdsInChannels, channel.id);
        if u !in profilesInChannel {
          saved := saved + [(channel.id, u)];
        }
      }
      i := i + 1;
    }
    assert userIds[..|userIds|] == userIds;
  }

  /** What the populate loop as written does: the saves made, and whether it threw. */
  datatype PopulateRun = PopulateRun(saved: seq<(Id, Id)>, threw: bool)

  /** The loop as written reads `channel.id` before testing `channel`, so the first user id without
      a DM channel in the store throws a TypeError. */
  function PopulateAsWritten(s: Stores, userIds: seq<Id>): (r: PopulateRun)
    decreases |userIds|
    ensures |r.saved| <= |userIds|
    ensures forall ch, u :: (ch, u) in r.saved ==> u in userIds && u in s.dmChannelWith && s.dmChannelWith[u].id == ch
  {
    if userIds == [] then PopulateRun([], false)
    else
      var p := PopulateAsWritten(s, userIds[..|userIds| - 1]);
      var u := userIds[|userIds| - 1];
      if p.threw then p
      else if u !in s.dmChannelWith then PopulateRun(p.saved, true)
      else if u in MembersOf(s.userIdsInChannels, s.dmChannelWith[u].id) then p
      else PopulateRun(p.saved + [(s.dmChannelWith[u].id, u)], false)
  }

  /** The loop as written throws exactly when some id has no DM channel in the store, and otherwise
      agrees with the guarded one. */
  lemma {:induction false} PopulateAsWrittenThrowsIff(s: Stores, userIds: seq<Id>)
    ensures PopulateAsWritten(s, userIds).threw <==> exists u :: u in userIds && u !in s.dmChannelWith
    ensures !PopulateAsWritten(s, userIds).threw ==> PopulateAsWritten(s, userIds).saved == DMChannelAdditions(s, userIds)
  {
    if userIds != [] {
      var init := userIds[..|userIds| - 1];
      PopulateAsWrittenThrowsIff(s, init);
      assert userIds == init + [userIds[|userIds| - 1]];
    }
  }

  /** A user with no DM channel in the store: the guard `channel &&` is never reached. */
  lemma PopulateAsWrittenThrowsForUnknownChannel(s: Stores)
    requires s.dmChannelWith == map[]
    ensures PopulateAsWritten(s, ["u1"]).threw
    ensures DMChannelAdditions(s, ["u1"]) == []
  {
    assert ["u1"][..0] == [];
  }

  /** The populate loop as written: `channel.id` is read first, so the loop stops at the first id
      without a DM channel in the store. */
  method PopulateDMChannelsAsWritten(s: Stores, userIds: seq<Id>) returns (run: PopulateRun)
    ensures run == PopulateAsWritten(s, userIds)
  {
    var saved: seq<(Id, Id)> := [];
    var i := 0;
    while i < |userIds|
      invariant 0 <= i <= |userIds|
      invariant PopulateRun(saved, false) == PopulateAsWritten(s, userIds[..i])
    {
      assert userIds[..i + 1][..i] == userIds[..i];
      var u := userIds[i];
      if u !in s.dmChannelWith {
        assert PopulateAsWritten(s, userIds[..i + 1]) == PopulateRun(saved, true);
        PopulateAsWrittenStaysThrown(s, userIds, i + 1, |userIds|);
        assert userIds[..|userIds|] == userIds;
        return PopulateRun(saved, true);
      }
      var channel := s.dmChannelWith[u];
      var profilesInChannel := MembersOf(s.userIdsInChannels, channel.id);
      if u !in profilesInChannel {
        saved := saved + [(channel.id, u)];
      }
      i := i + 1;
    }
    assert userIds[..|userIds|] == userIds;
    run := PopulateRun(saved, false);
  }

  /** Once the loop as written has thrown, later ids change nothing. */
  lemma {:induction false} PopulateAsWrittenStaysThrown(s: Stores, userIds: seq<Id>, i: nat, j: nat)
    requires 0 < i <= j <= |userIds|
    requires PopulateAsWritten(s, userIds[..i]).threw
    ensures PopulateAsWritten(s, userIds[..j]) == PopulateAsWritten(s, userIds[..i])
    decreases j
  {
    if j > i {
      PopulateAsWrittenStaysThrown(s, userIds, i, j - 1);
      assert userIds[..j][..j - 1] == userIds[..j - 1];
    }
  }

  /** A snapshot whose only channel is a DM named `me__other` with a mention, while the DM-channel
      lookup finds no channel with `other`: the pass keeps `other` whatever the preferences say, the
      populate loop as written throws, and the guarded one saves nothing. Both lookups go to one
      ChannelStore, so loadProfilesForDM meets such a snapshot only if the lookup misses a DM that
      the channel list showed, as when the channel leaves the store while getProfilesByIds is in
      flight. */
  lemma UnknownDMChannelThrowsAsWritten(s: Stores, prefs: map<(Category, string), string>, me: Id, other: Id,
                                          channelId: Id, total: int)
    requires s.currentUserId == me
    requires s.channels == [Channel(channelId, me + "__" + other, Direct, total)]
    requires channelId in s.myMembers && s.myMembers[channelId].mentionCount > 0
    requires other !in s.dmChannelWith
    ensures DMPassOver(s, prefs, s.channels).profileIds == [other]
    ensures PopulateAsWritten(s, DMPassOver(s, prefs, s.channels).profileIds).threw
    ensures DMChannelAdditions(s, DMPassOver(s, prefs, s.channels).profileIds) == []
  {
    SingleDMKept(s, prefs, me, other, channelId, total);
    PopulateAsWrittenThrowsIff(s, [other]);
    assert other in [other];
    assert [other][..0] == [];
  }

  /** The one DM of such a store is kept, with teammate `other`. */
  lemma SingleDMKept(s: Stores, prefs: map<(Category, string), string>, me: Id, other: Id, channelId: Id, total: int)
    requires s.currentUserId == me
    requires s.channels == [Channel(channelId, me + "__" + other, Direct, total)]
    requires channelId in s.myMembers && s.myMembers[channelId].mentionCount > 0
    ensures DMPassOver(s, prefs, s.channels).profileIds == [other]
  {
    var c := s.channels[0];
    TeammateWhenCurrentUserFirst(me, other);
    assert ClassifyDM(s, prefs, c).KeepDM? && ClassifyDM(s, prefs, c).teammate == other;
    assert s.channels[..0] == [];
  }

  /** For instance channel c1 named 'me__u1', with one mention, and a lookup that finds no DM
      channel with u1. */
  lemma UnknownDMChannelExample(s: Stores, prefs: map<(Category, string), string>)
    requires s.currentUserId == "me"
    requires s.channels == [Channel("c1", "me__u1", Direct, 0)]
    requires s.myMembers == map["c1" := ChannelMember(1, 0)]
    requires s.dmChannelWith == map[]
    ensures PopulateAsWritten(s, DMPassOver(s, prefs, s.channels).profileIds).threw
  {
    assert "me__u1" == "me" + "__" + "u1";
    UnknownDMChannelThrowsAsWritten(s, prefs, "me", "u1", "c1", 0);
  }

  /** The populate step of loadProfilesForDM: the loop as written and the guarded loop over the
      same ids. */
  method PopulateBoth(s: Stores, userIds: seq<Id>) returns (saved: seq<(Id, Id)>, asWritten: PopulateRun)
    ensures saved == DMChannelAdditions(s, userIds)
    ensures asWritten == PopulateAsWritten(s, userIds)
    ensures asWritten.threw <==> exists t :: t in userIds && t !in s.dmChannelWith
    ensures !asWritten.threw ==> asWritten.saved == saved
  {
    saved := PopulateDMChannelsWithProfiles(s, userIds);
    asWritten := PopulateDMChannelsAsWritten(s, userIds);
    PopulateAsWrittenThrowsIff(s, userIds);
  }

  /** loadProfilesForDM: the calls of DMSidebarCalls, then the populate step over every kept
      teammate (after getProfilesByIds resolves, or at once when nothing is loaded): `asWritten` is
      what the loop as written does, `saved` what the guarded loop saves. */
  method LoadProfilesForDM(s: Stores, prefs: map<(Category, string), string>)
    returns (calls: seq<Call>, saved: seq<(Id, Id)>, asWritten: PopulateRun)
    ensures calls == DMSidebarCalls(s, prefs)
    ensures saved == DMChannelAdditions(s, DMPassOver(s, prefs, s.channels).profileIds)
    ensures asWritten == PopulateAsWritten(s, DMPassOver(s, prefs, s.channels).profileIds)
    ensures asWritten.threw <==>
      exists t :: t in DMPassOver(s, prefs, s.channels).profileIds && t !in s.dmChannelWith
    ensures !asWritten.threw ==> asWritten.saved == saved
  {
    var newPreferences: seq<Preference> := [];
    var profilesToLoad: seq<Id> := [];
    var profileIds: seq<Id> := [];
    var i := 0;
    while i < |s.channels|
      invariant 0 <= i <= |s.channels|
      invariant DMPass(newPreferences, profilesToLoad, profileIds) == DMPassOver(s, prefs, s.channels[..i])
    {
      var channel := s.channels[i];
      assert s.channels[..i + 1][..i] == s.channels[..i];
      i := i + 1;
      if channel.kind != Direct {
        continue;
      }
      var teammateId := Teammate(channel.name, s.currentUserId);
      var isVisible := GetBool(prefs, DirectChannelShow, teammateId, false);
      if !isVisible {
        if channel.id !in s.myMembers || s.myMembers[channel.id].mentionCount == 0 {
          continue;
        }
        newPreferences := newPreferences + [ShowRecord(s.currentUserId, DirectChannelShow, teammateId)];
      }
      if teammateId !in s.profiles {
        profilesToLoad := profilesToLoad + [teammateId];
      }
      profileIds := profileIds + [teammateId];
    }
    assert s.channels[..|s.channels|] == s.channels;
    calls := SaveIfAny(s.currentUserId, newPreferences);
    if |profilesToLoad| > 0 {
      calls := calls + [GetProfilesByIds(profilesToLoad)];
    }
    saved, asWritten := PopulateBoth(s, profileIds);
  }

  // ---------------------------------------------------------------- group messages

  /** How one channel takes part in loadProfilesForGM. */
  datatype GMStep = SkipGM | LoadGM(newlyVisible: bool)

  /** A non-GM channel is skipped, and so is a GM that already has at least minUsersInGM profiles, or
      that is not shown and whose member record is missing or is fully read without mentions. */
  function ClassifyGM(s: Stores, prefs: map<(Category, string), string>, minUsersInGM: int, c: Channel): (r: GMStep)
    ensures r.SkipGM? <==>
      c.kind != Group
      || ProfileCount(s, c.id) >= minUsersInGM
      || (!GetBool(prefs, GroupChannelShow, c.id, false)
          && (c.id !in s.myMembers
              || (s.myMembers[c.id].mentionCount == 0 && s.myMembers[c.id].msgCount >= c.totalMsgCount)))
    ensures r.LoadGM? ==> (r.newlyVisible <==> !GetBool(prefs, GroupChannelShow, c.id, false))
  {
    if c.kind != Group || ProfileCount(s, c.id) >= minUsersInGM then SkipGM
    else
      var isVisible := GetBool(prefs, GroupChannelShow, c.id, false);
      if !isVisible
         && (c.id !in s.myMembers
             || (s.myMembers[c.id].mentionCount == 0 && s.myMembers[c.id].msgCount >= c.totalMsgCount))
      then SkipGM
      else LoadGM(!isVisible)
  }

  /** A GM with unread messages but no mentions is loaded; a DM with the same record is skipped. */
  lemma GroupAndDirectRulesDiffer(s: Stores, prefs: map<(Category, string), string>, dm: Channel, gm: Channel)
    requires dm.kind == Direct && gm.kind == Group
    requires !GetBool(prefs, DirectChannelShow, Teammate(dm.name, s.currentUserId), false)
    requires !GetBool(prefs, GroupChannelShow, gm.id, false)
    requires ProfileCount(s, gm.id) < 3
    requires dm.id in s.myMembers && s.myMembers[dm.id].mentionCount == 0
    requires gm.id in s.myMembers && s.myMembers[gm.id] == s.myMembers[dm.id]
    requires s.myMembers[gm.id].msgCount < gm.totalMsgCount
    ensures ClassifyDM(s, prefs, dm).SkipDM?
    ensures ClassifyGM(s, prefs, 3, gm) == LoadGM(true)
  {
  }

  /** What loadProfilesForGM's loop produces: the getProfilesInChannel calls issued in the loop, and
      the new records. */
  datatype GMPass = GMPass(calls: seq<Call>, newPreferences: seq<Preference>)

  function GMPassOver(s: Stores, prefs: map<(Category, string), string>, minUsersInGM: int, maxUsersInGM: int,
                      chans: seq<Channel>): GMPass
    decreases |chans|
  {
    if chans == [] then GMPass([], [])
    else
      var p := GMPassOver(s, prefs, minUsersInGM, maxUsersInGM, chans[..|chans| - 1]);
      var c := chans[|chans| - 1];
      match ClassifyGM(s, prefs, minUsersInGM, c)
      case SkipGM => p
      case LoadGM(isNew) =>
        GMPass(p.calls + [GetProfilesInChannel(c.id, 0, maxUsersInGM)],
               p.newPreferences + (if isNew then [ShowRecord(s.currentUserId, GroupChannelShow, c.id)] else []))
  }

  /** Each GM a pass loads gets one getProfilesInChannel(id, 0, MAX_USERS_IN_GM), and nothing else
      is called. */
  lemma {:induction false} GMPassCalls(s: Stores, prefs: map<(Category, string), string>, minUsersInGM: int,
                                       maxUsersInGM: int, chans: seq<Channel>)
    ensures forall call :: call in GMPassOver(s, prefs, minUsersInGM, maxUsersInGM, chans).calls <==>
      exists c :: c in chans && ClassifyGM(s, prefs, minUsersInGM, c).LoadGM?
                  && call == GetProfilesInChannel(c.id, 0, maxUsersInGM)
    ensures |GMPassOver(s, prefs, minUsersInGM, maxUsersInGM, chans).calls| <= |chans|
  {
    if chans != [] {
      var init, last := chans[..|chans| - 1], chans[|chans| - 1];
      GMPassCalls(s, prefs, minUsersInGM, maxUsersInGM, init);
      assert chans == init + [last];
      var before := GMPassOver(s, prefs, minUsersInGM, maxUsersInGM, init).calls;
      var after := GMPassOver(s, prefs, minUsersInGM, maxUsersInGM, chans).calls;
      forall call ensures call in after <==>
        exists c :: c in chans && ClassifyGM(s, prefs, minUsersInGM, c).LoadGM?
                    && call == GetProfilesInChannel(c.id, 0, maxUsersInGM)
      {
        if call in after {
          if call in before {
            var c :| c in init && ClassifyGM(s, prefs, minUsersInGM, c).LoadGM?
                     && call == GetProfilesInChannel(c.id, 0, maxUsersInGM);
            assert c in chans;
          } else {
            assert last in chans;
          }
        }
        if exists c :: c in chans && ClassifyGM(s, prefs, minUsersInGM, c).LoadGM?
                       && call == GetProfilesInChannel(c.id, 0, maxUsersInGM) {
          var c :| c in chans && ClassifyGM(s, prefs, minUsersInGM, c).LoadGM?
                   && call == GetProfilesInChannel(c.id, 0, maxUsersInGM);
          if c in init {
            assert call in before;
          } else {
            assert c == last;
          }
        }
      }
    }
  }

  /** A pass makes a 'true' record for exactly the GMs it newly shows. */
  lemma {:induction false} GMPassNewPreferences(s: Stores, prefs: map<(Category, string), string>, minUsersInGM: int,
                                                maxUsersInGM: int, chans: seq<Channel>)
    ensures forall r :: r in GMPassOver(s, prefs, minUsersInGM, maxUsersInGM, chans).newPreferences <==>
      exists c :: c in chans && ClassifyGM(s, prefs, minUsersInGM, c) == LoadGM(true)
                  && r == ShowRecord(s.currentUserId, GroupChannelShow, c.id)
    ensures GMPassOver(s, prefs, minUsersInGM, maxUsersInGM, chans).newPreferences == [] <==>
      forall c :: c in chans ==> ClassifyGM(s, prefs, minUsersInGM, c) != LoadGM(true)
  {
    if chans != [] {
      var init, last := chans[..|chans| - 1], chans[|chans| - 1];
      GMPassNewPreferences(s, prefs, minUsersInGM, maxUsersInGM, init);
      assert chans == init + [last];
      var before := GMPassOver(s, prefs, minUsersInGM, maxUsersInGM, init).newPreferences;
      var after := GMPassOver(s, prefs, minUsersInGM, maxUsersInGM, chans).newPreferences;
      forall r ensures r in after <==>
        exists c :: c in chans && ClassifyGM(s, prefs, minUsersInGM, c) == LoadGM(true)
                    && r == ShowRecord(s.currentUserId, GroupChannelShow, c.id)
      {
        if r in after {
          if r in before {
            var c :| c in init && ClassifyGM(s, prefs, minUsersInGM, c) == LoadGM(true)
                     && r == ShowRecord(s.currentUserId, GroupChannelShow, c.id);
            assert c in chans;
          } else {
            assert last in chans;
          }
        }
        if exists c :: c in chans && ClassifyGM(s, prefs, minUsersInGM, c) == LoadGM(true)
                       && r == ShowRecord(s.currentUserId, GroupChannelShow, c.id) {
          var c :| c in chans && ClassifyGM(s, prefs, minUsersInGM, c) == LoadGM(true)
                   && r == ShowRecord(s.currentUserId, GroupChannelShow, c.id);
          if c in init {
            assert r in before;
          } else {
            assert c == last;
          }
        }
      }
    }
  }

  /** The GMs of `chans` a pass loads, in channel order. */
  function LoadedGMs(s: Stores, prefs: map<(Category, string), string>, minUsersInGM: int, chans: seq<Channel>): (r: seq<Channel>)
    decreases |chans|
    ensures |r| <= |chans|
    ensures forall c :: c in r ==> c in chans && ClassifyGM(s, prefs, minUsersInGM, c).LoadGM?
    ensures forall c :: c in chans && ClassifyGM(s, prefs, minUsersInGM, c).LoadGM? ==> c in r
  {
    if chans == [] then []
    else
      var last := chans[|chans| - 1];
      assert chans == chans[..|chans| - 1] + [last];
      LoadedGMs(s, prefs, minUsersInGM, chans[..|chans| - 1])
      + (if ClassifyGM(s, prefs, minUsersInGM, last).LoadGM? then [last] else [])
  }

  /** The GMs of `chans` a pass newly shows, in channel order. */
  function NewlyShownGMs(s: Stores, prefs: map<(Category, string), string>, minUsersInGM: int, chans: seq<Channel>): (r: seq<Channel>)
    decreases |chans|
    ensures |r| <= |chans|
    ensures forall c :: c in r ==> c in chans && ClassifyGM(s, prefs, minUsersInGM, c) == LoadGM(true)
    ensures forall c :: c in chans && ClassifyGM(s, prefs, minUsersInGM, c) == LoadGM(true) ==> c in r
  {
    if chans == [] then []
    else
      var last := chans[|chans| - 1];
      assert chans == chans[..|chans| - 1] + [last];
      NewlyShownGMs(s, prefs, minUsersInGM, chans[..|chans| - 1])
      + (if ClassifyGM(s, prefs, minUsersInGM, last) == LoadGM(true) then [last] else [])
  }

  /** A pass issues one getProfilesInChannel per loaded GM and one record per newly shown GM, in
      channel order. */
  lemma {:induction false} GMPassCounts(s: Stores, prefs: map<(Category, string), string>, minUsersInGM: int,
                                        maxUsersInGM: int, chans: seq<Channel>)
    ensures var p := GMPassOver(s, prefs, minUsersInGM, maxUsersInGM, chans);
      var loaded := LoadedGMs(s, prefs, minUsersInGM, chans);
      |p.calls| == |loaded|
      && forall k :: 0 <= k < |loaded| ==> p.calls[k] == GetProfilesInChannel(loaded[k].id, 0, maxUsersInGM)
    ensures var p := GMPassOver(s, prefs, minUsersInGM, maxUsersInGM, chans);
      var shown := NewlyShownGMs(s, prefs, minUsersInGM, chans);
      |p.newPreferences| == |shown|
      && forall k :: 0 <= k < |shown| ==> p.newPreferences[k] == ShowRecord(s.currentUserId, GroupChannelShow, shown[k].id)
  {
    if chans != [] {
      GMPassCounts(s, prefs, minUsersInGM, maxUsersInGM, chans[..|chans| - 1]);
    }
  }

  /** Once a GM pass's records have reached PreferenceStore, a second pass records nothing new. */
  lemma GMPassRepeatRecordsNothing(s: Stores, prefs: map<(Category, string), string>, minUsersInGM: int,
                                   maxUsersInGM: int)
    ensures var first := GMPassOver(s, prefs, minUsersInGM, maxUsersInGM, s.channels);
      GMPassOver(s, Stored(prefs, first.newPreferences), minUsersInGM, maxUsersInGM, s.channels).newPreferences == []
  {
    var first := GMPassOver(s, prefs, minUsersInGM, maxUsersInGM, s.channels);
    var after := Stored(prefs, first.newPreferences);
    GMPassNewPreferences(s, prefs, minUsersInGM, maxUsersInGM, s.channels);
    GMPassNewPreferences(s, after, minUsersInGM, maxUsersInGM, s.channels);
    StoredShows(prefs, first.newPreferences);
    forall c | c in s.channels ensures ClassifyGM(s, after, minUsersInGM, c) != LoadGM(true) {
      var r := ShowRecord(s.currentUserId, GroupChannelShow, c.id);
      if r in first.newPreferences {
        assert GetBool(after, GroupChannelShow, c.id, false);
      } else {
        assert forall q :: q in first.newPreferences ==> (q.category, q.name) != (GroupChannelShow, c.id);
        assert GetBool(after, GroupChannelShow, c.id, false) == GetBool(prefs, GroupChannelShow, c.id, false);
      }
    }
  }

  function GMSidebarCalls(s: Stores, prefs: map<(Category, string), string>, minUsersInGM: int, maxUsersInGM: int): seq<Call>
  {
    var p := GMPassOver(s, prefs, minUsersInGM, maxUsersInGM, s.channels);
    p.calls + SaveIfAny(s.currentUserId, p.newPreferences)
  }

  /** loadProfilesForGM: a getProfilesInChannel per loaded GM, in channel order, then one
      savePreferences with every new record if there is one. */
  method LoadProfilesForGM(s: Stores, prefs: map<(Category, string), string>, minUsersInGM: int, maxUsersInGM: int)
    returns (calls: seq<Call>)
    ensures calls == GMSidebarCalls(s, prefs, minUsersInGM, maxUsersInGM)
  {
    var newPreferences: seq<Preference> := [];
    calls := [];
    var i := 0;
    while i < |s.channels|
      invariant 0 <= i <= |s.channels|
      invariant GMPass(calls, newPreferences) == GMPassOver(s, prefs, minUsersInGM, maxUsersInGM, s.channels[..i])
    {
      var channel := s.channels[i];
      assert s.channels[..i + 1][..i] == s.channels[..i];
      i := i + 1;
      if channel.kind != Group {
        continue;
      }
      if ProfileCount(s, channel.id) >= minUsersInGM {
        continue;
      }
      var isVisible := GetBool(prefs, GroupChannelShow, channel.id, false);
      if !isVisible {
        if channel.id !in s.myMembers
           || (s.myMembers[channel.id].mentionCount == 0
               && s.myMembers[channel.id].msgCount >= channel.totalMsgCount) {
          continue;
        }
        newPreferences := newPreferences + [ShowRecord(s.currentUserId, GroupChannelShow, channel.id)];
      }
      calls := calls + [GetProfilesInChannel(channel.id, 0, maxUsersInGM)];
    }
    assert s.channels[..|s.channels|] == s.channels;
    calls := calls + SaveIfAny(s.currentUserId, newPreferences);
  }

  // ---------------------------------------------------------------- new DM / GM

  /** ChannelStore.get(channelId), or else what getChannelAndMyMember resolved with. */
  function KnownOrFetched(s: Stores, channelId: Id, fetched: Option<Channel>): Option<Channel>
  {
    if channelId in s.channelById then Some(s.channelById[channelId]) else fetched
  }

  function LookupCalls(s: Stores, channelId: Id): seq<Call>
  {
    if channelId in s.channelById then [] else [GetChannelAndMyMember(channelId)]
  }

  /** The stores checkPreference reads: the current ones when ChannelStore holds the channel, else
      `later`, the ones in place once getChannelAndMyMember has resolved. */
  function StoresForCheck(s: Stores, channelId: Id, later: Stores): (r: Stores)
    ensures channelId in s.channelById ==> r == s
    ensures channelId !in s.channelById ==> r == later
  {
    if channelId in s.channelById then s else later
  }

  /** The stores after getChannelAndMyMember has put a fetched channel and the user's member record
      in place. */
  function WithFetched(s: Stores, c: Channel, m: ChannelMember): (r: Stores)
    ensures r.channels == s.channels + [c]
    ensures c.id in r.channelById && r.channelById[c.id] == c
    ensures c.id in r.myMembers && r.myMembers[c.id] == m
    ensures r.currentUserId == s.currentUserId && r.profileCounts == s.profileCounts
  {
    s.(channels := s.channels + [c], channelById := s.channelById[c.id := c], myMembers := s.myMembers[c.id := m])
  }

  /** loadNewDMIfNeeded: when the DM's user is not yet shown, mark it shown in PreferenceStore, save
      that one record, and run loadProfilesForDM over the updated preferences and the stores of the
      moment; `peerOf` stands for getUserIdFromChannelName, with '' for a falsy result. Afterwards
      the DM is shown. */
  method LoadNewDMIfNeeded(s: Stores, store: PreferenceStore, channelId: Id, fetched: Option<Channel>,
                           later: Stores, peerOf: Channel -> Id)
    returns (calls: seq<Call>, saved: seq<(Id, Id)>, asWritten: PopulateRun)
    modifies store
    ensures var ch := KnownOrFetched(s, channelId, fetched);
      var t := StoresForCheck(s, channelId, later);
      var peer := if ch.Some? then peerOf(ch.value) else "";
      if peer == "" || GetBool(old(store.entries), DirectChannelShow, peer, false) then
        && calls == LookupCalls(s, channelId) && saved == [] && asWritten == PopulateRun([], false)
        && store.entries == old(store.entries)
      else
        && store.entries == old(store.entries)[(DirectChannelShow, peer) := "true"]
        && calls == LookupCalls(s, channelId)
                    + [SavePreferences(t.currentUserId, [ShowRecord(t.currentUserId, DirectChannelShow, peer)])]
                    + DMSidebarCalls(t, store.entries)
        && saved == DMChannelAdditions(t, DMPassOver(t, store.entries, t.channels).profileIds)
        && asWritten == PopulateAsWritten(t, DMPassOver(t, store.entries, t.channels).profileIds)
    ensures var ch := KnownOrFetched(s, channelId, fetched);
      ch.Some? && peerOf(ch.value) != "" ==> GetBool(store.entries, DirectChannelShow, peerOf(ch.value), false)
  {
    calls := LookupCalls(s, channelId);
    saved := [];
    asWritten := PopulateRun([], false);
    var channel := KnownOrFetched(s, channelId, fetched);
    if channel.None? {
      return;
    }
    var now := StoresForCheck(s, channelId, later);
    var userId := peerOf(channel.value);
    if userId == "" {
      return;
    }
    var pref := GetBool(store.entries, DirectChannelShow, userId, false);
    if !pref {
      store.SetPreference(DirectChannelShow, userId, "true");
      calls := calls + [SavePreferences(now.currentUserId, [ShowRecord(now.currentUserId, DirectChannelShow, userId)])];
      var more;
      more, saved, asWritten := LoadProfilesForDM(now, store.entries);
      calls := calls + more;
    }
  }

  /** loadNewGMIfNeeded: the same for a GM, keyed by the channel id; the preference check runs after
      getChannelAndMyMember whatever it resolved with, over the stores of that moment. */
  method LoadNewGMIfNeeded(s: Stores, store: PreferenceStore, channelId: Id, later: Stores,
                           minUsersInGM: int, maxUsersInGM: int)
    returns (calls: seq<Call>)
    modifies store
    ensures var t := StoresForCheck(s, channelId, later);
      if GetBool(old(store.entries), GroupChannelShow, channelId, false) then
        calls == LookupCalls(s, channelId) && store.entries == old(store.entries)
      else
        && store.entries == old(store.entries)[(GroupChannelShow, channelId) := "true"]
        && calls == LookupCalls(s, channelId)
                    + [SavePreferences(t.currentUserId, [ShowRecord(t.currentUserId, GroupChannelShow, channelId)])]
                    + GMSidebarCalls(t, store.entries, minUsersInGM, maxUsersInGM)
    ensures GetBool(store.entries, GroupChannelShow, channelId, false)
  {
    calls := LookupCalls(s, channelId);
    var now := StoresForCheck(s, channelId, later);
    var pref := GetBool(store.entries, GroupChannelShow, channelId, false);
    if !pref {
      store.SetPreference(GroupChannelShow, channelId, "true");
      calls := calls + [SavePreferences(now.currentUserId, [ShowRecord(now.currentUserId, GroupChannelShow, channelId)])];
      var more := LoadProfilesForGM(now, store.entries, minUsersInGM, maxUsersInGM);
      calls := calls + more;
    }
  }

  /** A GM that loadNewGMIfNeeded had to fetch, with fewer than minUsersInGM profiles, gets its
      getProfilesInChannel(id, 0, MAX_USERS_IN_GM) from the follow-up pass once the fetched channel
      and member are in the stores. */
  lemma FetchedGMIsLoaded(s: Stores, prefs: map<(Category, string), string>, c: Channel, m: ChannelMember,
                          minUsersInGM: int, maxUsersInGM: int)
    requires c.kind == Group
    requires ProfileCount(s, c.id) < minUsersInGM
    ensures GetProfilesInChannel(c.id, 0, maxUsersInGM)
      in GMSidebarCalls(WithFetched(s, c, m), prefs[(GroupChannelShow, c.id) := "true"], minUsersInGM, maxUsersInGM)
  {
    var t := WithFetched(s, c, m);
    var shown := prefs[(GroupChannelShow, c.id) := "true"];
    assert ProfileCount(t, c.id) == ProfileCount(s, c.id);
    assert ClassifyGM(t, shown, minUsersInGM, c).LoadGM?;
    GMPassCalls(t, shown, minUsersInGM, maxUsersInGM, t.channels);
    assert c in t.channels;
  }

  // ---------------------------------------------------------------- themes

  /** The team-specific theme preferences onThemeSaved deletes: every name but '' and teamId. */
  function ThemeDeletions(userId: Id, teamId: Id, themeNames: seq<string>): seq<PreferenceKey>
    decreases |themeNames|
  {
    if themeNames == [] then []
    else
      var name := themeNames[|themeNames| - 1];
      ThemeDeletions(userId, teamId, themeNames[..|themeNames| - 1])
      + (if name == "" || name == teamId then [] else [PreferenceKey(userId, Theme, name)])
  }

  lemma {:induction false} ThemeDeletionsSpec(userId: Id, teamId: Id, themeNames: seq<string>)
    ensures forall k :: k in ThemeDeletions(userId, teamId, themeNames) <==>
      k.userId == userId && k.category == Theme && k.name in themeNames && k.name != "" && k.name != teamId
    ensures |ThemeDeletions(userId, teamId, themeNames)| <= |themeNames|
  {
    if themeNames != [] {
      var init := themeNames[..|themeNames| - 1];
      ThemeDeletionsSpec(userId, teamId, init);
      assert themeNames == init + [themeNames[|themeNames| - 1]];
    }
  }

  /** Nothing is deleted exactly when every theme name is '' or the team's own. */
  lemma ThemeDeletionsEmpty(userId: Id, teamId: Id, themeNames: seq<string>)
    ensures ThemeDeletions(userId, teamId, themeNames) == [] <==> forall n :: n in themeNames ==> n == "" || n == teamId
  {
    var d := ThemeDeletions(userId, teamId, themeNames);
    ThemeDeletionsSpec(userId, teamId, themeNames);
    if d != [] {
      assert d[0] in d;
    }
    forall n | n in themeNames && n != "" && n != teamId ensures d != [] {
      assert PreferenceKey(userId, Theme, n) in d;
    }
  }

  /** What onThemeSaved calls: nothing when a team theme is saved while several theme preferences
      exist; otherwise one deletePreferences with every theme but '' and teamId, if there is one. */
  function ThemeCleanupCalls(userId: Id, teamId: Id, themeNames: seq<string>): (calls: seq<Call>)
    ensures |calls| <= 1
    ensures teamId != "" && |themeNames| > 1 ==> calls == []
    ensures !(teamId != "" && |themeNames| > 1) ==>
      (calls == [] <==> forall n :: n in themeNames ==> n == "" || n == teamId)
    ensures calls != [] ==> calls[0] == DeletePreferences(userId, ThemeDeletions(userId, teamId, themeNames))
  {
    ThemeDeletionsSpec(userId, teamId, themeNames);
    ThemeDeletionsEmpty(userId, teamId, themeNames);
    if teamId != "" && |themeNames| > 1 then []
    else
      var toDelete := ThemeDeletions(userId, teamId, themeNames);
      if toDelete == [] then []
      else [DeletePreferences(userId, toDelete)]
  }

  /** onThemeSaved over the names of PreferenceStore.getCategory(CATEGORY_THEME), in iteration
      order: the cleanup calls, and onSuccess() exactly once. */
  method OnThemeSaved(currentUserId: Id, teamId: Id, themeNames: seq<string>) returns (calls: seq<Call>, fired: Fired<()>)
    ensures calls == ThemeCleanupCalls(currentUserId, teamId, themeNames)
    ensures fired == Success(NoArg)
  {
    if teamId != "" && |themeNames| > 1 {
      return [], Success(NoArg);
    }
    var toDelete: seq<PreferenceKey> := [];
    var i := 0;
    while i < |themeNames|
      invariant 0 <= i <= |themeNames|
      invariant toDelete == ThemeDeletions(currentUserId, teamId, themeNames[..i])
    {
      var name := themeNames[i];
      assert themeNames[..i + 1][..i] == themeNames[..i];
      i := i + 1;
      if name == "" || name == teamId {
        continue;
      }
      toDelete := toDelete + [PreferenceKey(currentUserId, Theme, name)];
    }
    assert themeNames[..|themeNames|] == themeNames;
    calls := if |toDelete| > 0 then [DeletePreferences(currentUserId, toDelete)] else [];
    fired := Success(NoArg);
  }

  /** saveTheme: one savePreferences with the theme record; on a truthy reply with an onSuccess,
      onThemeSaved runs; on a null reply, onError by the shared rule. `themeNames` are the theme
      preferences onThemeSaved then finds. */
  method SaveTheme<T>(currentUserId: Id, teamId: Id, themeJson: string, themeNames: seq<string>,
                      reply: Reply<T>, hasSuccess: bool, hasError: bool, err: ServerError)
    returns (out: Outcome<T>)
    ensures |out.calls| >= 1
    ensures out.calls[0] == SavePreferences(currentUserId, [Preference(currentUserId, Theme, teamId, themeJson)])
    ensures reply.Truthy? && hasSuccess ==>
      out.calls[1..] == ThemeCleanupCalls(currentUserId, teamId, themeNames) && out.fired == Success(NoArg)
    ensures !(reply.Truthy? && hasSuccess) ==>
      |out.calls| == 1 && out.fired == (if reply.Null? && hasError then Error(ErrorObject(err)) else NoCallback)
  {
    var save := SavePreferences(currentUserId, [Preference(currentUserId, Theme, teamId, themeJson)]);
    if reply.Truthy? && hasSuccess {
      var cleanup, _ := OnThemeSaved(currentUserId, teamId, themeNames);
      out := Outcome([save] + cleanup, Success(NoArg));
    } else if reply.Null? && hasError {
      out := Outcome([save], Error(ErrorObject(err)));
    } else {
      out := Outcome([save], NoCallback);
    }
  }
}
