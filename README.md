# Web client bookkeeping: user actions and the emoji picker

This project models, in Dafny, the decision logic of three files of the Mattermost web client.

- **`webapp/actions/user_actions.jsx`**:
  - the loaders that fetch only the team or channel members, or the profiles, that the stores lack;
  - the sidebar sync that decides which direct (DM) and group (GM) conversations to show and whose profiles to load;
  - the clean-up of team themes after a theme is saved;
  - the callback rule shared by the thin wrappers around Redux actions.
- **`webapp/components/emoji_picker/emoji_picker.jsx`**:
  - which emojis a category lists under a search filter;
  - which category the bar highlights for a scroll position;
  - the preview selection;
  - the style handed to the popover.
- **`webapp/components/emoji_picker/emoji_picker_overlay.jsx`**: where the picker opens, chosen each time it goes from hidden to shown.

## Files

- **`js.dfy`** (module `Js`): the JavaScript built-ins the code leans on.
  - `undefined`/`null` become `Option`.
  - `String.prototype.indexOf` is modelled, and so is `replace` with a string pattern, which removes the first occurrence only.
  - An object used as a set: `Object.keys` lists each key once, in first-insertion order.
- **`user_actions.dfy`** (module `UserActions`):
  - The Flux stores and Redux selectors are an immutable `Stores` snapshot.
  - `PreferenceStore` is a class; `loadNewDMIfNeeded` and `loadNewGMIfNeeded` update it.
  - Every remote call an action issues is returned, in issue order, as a `Call` value.
  - What a call resolves with is a `Reply` parameter. The callback it leads to is a `Fired` value: `success`, `error`, none, handed on, or a thrown TypeError.
  - The loops (`membersToLoad`, `newPreferences`, `profilesToLoad`, `profileIds`, the populate loop, `toDelete`) are methods.
  - Each such method is proved equal to a specification function whose properties are lemmas.
- **`emoji_picker.dfy`** (module `EmojiPicker`):
  - The component state (`category`, `filter`, `selected`) is the class `EmojiPicker`, with one method per handler.
  - `renderCategory`, the alias loop, `handleScroll` and the `pickerStyle` computation are methods with loops or in-place updates.
  - `renderCategory` and the alias loop are proved equal to specification functions, and `handleScroll` is stated through `FirstVisible`.
  - `pickerStyle` has no specification function: its contract states each field of the result directly.
- **`emoji_picker_overlay.dfy`** (module `EmojiPickerOverlay`):
  - the placement rule;
  - the class `Overlay`, whose one state field `placement` is written by `componentWillUpdate`;
  - a pure `Step`/`Run` view of a sequence of updates.

## Model

| member | source | states |
|---|---|---|
| Js.IndexOf | webapp/components/emoji_picker/emoji_picker.jsx:168 | `indexOf` is -1 exactly when the pattern does not occur; otherwise it is the first position where it occurs |
| Js.RemoveFirst | webapp/actions/user_actions.jsx:357 | `replace(pat, '')` removes only the first occurrence, and leaves the string alone when there is none |
| Js.RemoveFirstOfPrefix | webapp/actions/user_actions.jsx:357 | replacing a prefix of the string strips exactly that prefix |
| Js.KeysInsertedAreTheSet | webapp/actions/user_actions.jsx:128-137 | `Object.keys` of the set-like object holds exactly the inserted ids, each once |
| Js.KeysInsertedEmpty | webapp/actions/user_actions.jsx:137-138 | the key list is empty exactly when nothing was inserted |
| UserActions.ErrorObject | webapp/actions/user_actions.jsx:166-167 | the error argument's `id` is `server_error_id`, unless the server error has an `id` field of its own, which the spread makes win |
| UserActions.OnReply | webapp/actions/user_actions.jsx:163-168 | `success(data)` iff data is truthy and there is a success callback; `error` iff data is null and there is an error callback; never both |
| UserActions.OnNonNullReply | webapp/actions/user_actions.jsx:589-594 | checkMfa's rule: success on any non-null value, error only on null |
| UserActions.NonNullRuleDiffersOnlyOnFalsy | webapp/actions/user_actions.jsx:589-594 | checkMfa's rule and the shared rule disagree exactly on a falsy non-null reply when a success callback is given |
| UserActions.OnLoginReply | webapp/actions/user_actions.jsx:670-681 | success iff a success callback is given and either the login succeeded or it failed with the MFA-required error while an error callback was given; error iff it failed with any other error and an error callback was given |
| UserActions.LoadTeamMembersForProfiles | webapp/actions/user_actions.jsx:160-171 | one `getTeamMembersByIds(teamId, userIds)`; callbacks by the shared rule |
| UserActions.UpdateUser | webapp/actions/user_actions.jsx:503-514 | one `updateMe(user)`; callbacks by the shared rule |
| UserActions.CheckMfa | webapp/actions/user_actions.jsx:581-597 | with MFA disabled: no call, and `success(false)`, which throws when there is no success callback; otherwise one `checkMfaRedux` call and the non-null rule |
| UserActions.OnAnyReply | webapp/actions/user_actions.jsx:452-454 | the rule of searchUsers, searchUsersNotInTeam, the autocomplete wrappers, loadProfiles and loadProfilesWithoutTeam: success iff a success callback is given, on any reply, null included; never error |
| UserActions.SearchUsers | webapp/actions/user_actions.jsx:447-469 | searchUsers and searchUsersNotInTeam: one `searchProfiles` call restricted to, or excluding, the given team (by default the current one); success on any reply |
| UserActions.LoadProfiles | webapp/actions/user_actions.jsx:779-787 | loadProfiles (and loadProfilesWithoutTeam, lines 148-158): one page request; success on any reply |
| UserActions.AutoResetStatus | webapp/actions/user_actions.jsx:807-825 | one `getStatus` for the current user, always first; a null status (the request failed) throws on `.manual`, so the promise rejects after that one call; otherwise a second call, `setStatus(online)`, iff the status was set by hand and the auto-reset preference is on, and the promise resolves with the fetched status either way |
| UserActions.LoginWithId | webapp/actions/user_actions.jsx:667-684 | one `loginById` call; callbacks by the login rule |
| UserActions.WebLogin | webapp/actions/user_actions.jsx:699-735 | webLogin and webLoginByLdap: one `login` call (LDAP-only for the latter); callbacks by the login rule |
| UserActions.MissingIdsCounts | webapp/actions/user_actions.jsx:790 | the filter keeps each absent id exactly as often as the input has it, and no present id |
| UserActions.MissingIdsSpec | webapp/actions/user_actions.jsx:790-794 | an id is kept iff it is in the input and has no profile; the result is empty iff every id has one |
| UserActions.MembersToLoad | webapp/actions/user_actions.jsx:128-137 | the ids to load are exactly the profile ids missing from the membership set, each once; the list is empty iff every profile is a member |
| UserActions.CollectMembersToLoad | webapp/actions/user_actions.jsx:128-137 | the `membersToLoad` loop followed by `Object.keys` computes `MembersToLoad` |
| UserActions.LoadTeamMembersForProfilesList | webapp/actions/user_actions.jsx:127-146 | a null profile list throws at `profiles.length` with no call and no callback; otherwise no call iff every profile is an active team member, and then `success({})` if a success callback is given; otherwise exactly one `getTeamMembersByIds` for the missing ids, callbacks by the shared rule |
| UserActions.LoadChannelMembersForProfilesList | webapp/actions/user_actions.jsx:202-221 | the same throw on a null list and the same gate against channel membership; the one `getChannelMembersForUserIds` call takes along whichever of the success and error callbacks the caller gave |
| UserActions.LoadChannelMembersForProfilesMap | webapp/actions/user_actions.jsx:173-194 | no call iff every key of the profile map is a channel member, and then `success({})`; otherwise one call listing exactly the non-member keys, each once |
| UserActions.GetMissingProfiles | webapp/actions/user_actions.jsx:789-797 | no call iff every id has a profile; otherwise one `getProfilesByIds` with the filtered list, in input order, duplicates kept |
| UserActions.WarmedTeamLoadFindsNothing | webapp/actions/user_actions.jsx:127-143 | once the requested members are in the store, the same load requests nothing |
| UserActions.ShowRecord | webapp/actions/user_actions.jsx:366-371 | every new sidebar record has value `'true'` |
| UserActions.StoredShows | webapp/actions/user_actions.jsx:251-253 | storing `'true'` records makes `getBool` true for the names they mention and changes no other name |
| UserActions.PreferenceStore.SetPreference | webapp/actions/user_actions.jsx:253 | `setPreference` overwrites one (category, name) entry and nothing else |
| UserActions.SaveIfAny | webapp/actions/user_actions.jsx:380-383 | one `savePreferences` with all the records, issued iff there is at least one record |
| UserActions.TeammateWhenCurrentUserFirst | webapp/actions/user_actions.jsx:357 | for a channel named `me__other` the teammate is `other` |
| UserActions.TeammateWhenCurrentUserSecond | webapp/actions/user_actions.jsx:357 | for a channel named `other__me` the teammate is `other`, when both ids have the same length and no `_` |
| UserActions.ClassifyDM | webapp/actions/user_actions.jsx:353-364 | a channel is skipped iff it is not a DM, or it is a hidden DM whose member record is missing or has no mentions; a kept DM is newly shown iff it was hidden |
| UserActions.KeptDMs | webapp/actions/user_actions.jsx:351-378 | the DMs the pass keeps, in channel order: a channel is in it iff it is one of `chans` classified as kept |
| UserActions.NewlyShownDMs | webapp/actions/user_actions.jsx:360-372 | the DMs the pass newly shows, in channel order: a channel is in it iff it is one of `chans` kept and newly shown |
| UserActions.DMPassProfileIdsInOrder | webapp/actions/user_actions.jsx:351-378 | `profileIds` has exactly one entry per kept DM, its teammate, in channel order |
| UserActions.DMPassNewPreferencesInOrder | webapp/actions/user_actions.jsx:360-372 | `newPreferences` has exactly one DM-show record per newly shown DM, for its teammate, in channel order |
| UserActions.DMPassProfileIds | webapp/actions/user_actions.jsx:351-378 | `profileIds` holds exactly the teammates of the kept DMs |
| UserActions.DMPassNewPreferences | webapp/actions/user_actions.jsx:360-372 | as a set, `newPreferences` holds exactly the DM-show records of the newly shown DMs, and is empty iff no DM is newly shown (counts and order: `UserActions.DMPassNewPreferencesInOrder`) |
| UserActions.DMPassProfilesToLoad | webapp/actions/user_actions.jsx:374-376 | `profilesToLoad` holds exactly the kept teammates without a profile |
| UserActions.DMPassRepeatRecordsNothing | webapp/actions/user_actions.jsx:358-372 | once a pass's records are in PreferenceStore, a second pass records nothing |
| UserActions.LoadProfilesForDM | webapp/actions/user_actions.jsx:345-394 | the loop computes the pass; then one save if there are records, one `getProfilesByIds` if profiles are missing, and the populate step over `profileIds`: both what the loop as written does (it throws iff some kept teammate has no DM channel in the store) and what the guarded loop saves, the two agreeing when it does not throw |
| UserActions.DMChannelAdditionsSpec | webapp/actions/user_actions.jsx:223-234 | a (channel, user) pair is saved iff the user is listed, their DM channel is in the store, and the channel's profile set lacks them |
| UserActions.PopulateDMChannelsWithProfiles | webapp/actions/user_actions.jsx:223-234 | the guarded populate loop saves exactly `DMChannelAdditions` |
| UserActions.PopulateAsWritten | webapp/actions/user_actions.jsx:223-234 | the loop as written makes no more saves than there are ids, each for a listed id whose DM channel is in the store |
| UserActions.PopulateDMChannelsAsWritten | webapp/actions/user_actions.jsx:223-234 | the populate loop as written, which stops at the first id without a DM channel, computes `PopulateAsWritten` |
| UserActions.PopulateAsWrittenStaysThrown | webapp/actions/user_actions.jsx:228-229 | once the loop as written has thrown, the later ids change nothing |
| UserActions.PopulateBoth | webapp/actions/user_actions.jsx:223-234 | the populate step computes both loops over the same ids: the one as written throws iff some id has no DM channel in the store, and otherwise saves what the guarded one saves |
| UserActions.PopulateAsWrittenThrowsIff | webapp/actions/user_actions.jsx:228-230 | the loop as written throws iff some user id has no DM channel in the store; otherwise it saves the same pairs as the guarded loop |
| UserActions.PopulateAsWrittenThrowsForUnknownChannel | webapp/actions/user_actions.jsx:228-230 | a concrete input on which the loop as written throws while the guarded loop saves nothing |
| UserActions.SingleDMKept | webapp/actions/user_actions.jsx:351-378 | when the only channel is a DM named `me__other` with a mention, the pass keeps exactly `other`, whatever the preferences say |
| UserActions.UnknownDMChannelThrowsAsWritten | webapp/actions/user_actions.jsx:345-394 | such a DM while the DM-channel lookup finds no channel with `other`: the pass keeps `other`, the populate step as written throws, and the guarded one saves nothing; reachable only when the lookup misses a DM the channel list showed (see `dmChannelWith` under Left out) |
| UserActions.UnknownDMChannelExample | webapp/actions/user_actions.jsx:345-394 | the instance: channel `c1` named `me__u1` with one mention, and a DM-channel lookup that misses it, makes the populate step of loadProfilesForDM throw |
| UserActions.ClassifyGM | webapp/actions/user_actions.jsx:308-322 | a channel is skipped iff it is not a GM, or already has at least MIN_USERS_IN_GM profiles, or is hidden with no member record, or is hidden with no mentions and `msg_count >= total_msg_count`; a loaded GM is newly shown iff it was hidden |
| UserActions.GroupAndDirectRulesDiffer | webapp/actions/user_actions.jsx:318-322 | the GM and DM rules are asymmetric: a hidden GM with unread messages but no mentions is loaded, while a DM with the same record is skipped |
| UserActions.LoadedGMs | webapp/actions/user_actions.jsx:306-337 | the GMs the pass loads, in channel order: a channel is in it iff it is one of `chans` classified as loaded |
| UserActions.NewlyShownGMs | webapp/actions/user_actions.jsx:318-330 | the GMs the pass newly shows, in channel order: a channel is in it iff it is one of `chans` loaded and newly shown |
| UserActions.GMPassCounts | webapp/actions/user_actions.jsx:306-337 | exactly one `getProfilesInChannel(id, 0, MAX_USERS_IN_GM)` per loaded GM, in channel order; exactly one record per newly shown GM, in channel order |
| UserActions.GMPassCalls | webapp/actions/user_actions.jsx:306-337 | as a set, the loop's calls are exactly the `getProfilesInChannel(id, 0, MAX_USERS_IN_GM)` of the loaded GMs, and no more calls than channels (counts and order: `UserActions.GMPassCounts`) |
| UserActions.GMPassNewPreferences | webapp/actions/user_actions.jsx:318-330 | as a set, `newPreferences` holds exactly the GM-show records of the newly shown GMs, and is empty iff no GM is newly shown (counts and order: `UserActions.GMPassCounts`) |
| UserActions.GMPassRepeatRecordsNothing | webapp/actions/user_actions.jsx:318-330 | once a GM pass's records are in PreferenceStore, a second pass records nothing |
| UserActions.LoadProfilesForGM | webapp/actions/user_actions.jsx:302-343 | the per-GM calls in channel order, then one save if there are records |
| UserActions.StoresForCheck | webapp/actions/user_actions.jsx:260-271 | the stores checkPreference reads are the current ones when ChannelStore holds the channel, else those in place once `getChannelAndMyMember` has resolved |
| UserActions.WithFetched | webapp/actions/user_actions.jsx:264-268 | the fetched channel joins `getChannels()`, `get(id)` and `getMyMember(id)`; the user and the profile counts stay |
| UserActions.LoadNewDMIfNeeded | webapp/actions/user_actions.jsx:243-272 | a hidden DM is marked shown in PreferenceStore and saved in one record, then the DM pass (with the populate step as written and guarded) runs over the updated preferences and the stores of that moment, after the fetch when there was one; an already shown DM, or one whose user id is falsy, changes nothing; afterwards the DM is shown |
| UserActions.LoadNewGMIfNeeded | webapp/actions/user_actions.jsx:274-295 | the same for a GM, keyed by channel id; checkPreference runs after `getChannelAndMyMember` whatever it resolved with, over the stores of that moment; afterwards the GM is shown |
| UserActions.FetchedGMIsLoaded | webapp/actions/user_actions.jsx:274-337 | a GM that had to be fetched, with fewer than MIN_USERS_IN_GM profiles, gets its `getProfilesInChannel` from the follow-up pass once the fetched channel is in the stores |
| UserActions.ThemeDeletionsSpec | webapp/actions/user_actions.jsx:424-436 | a theme preference is deleted iff its name is neither `''` nor the team id |
| UserActions.ThemeDeletionsEmpty | webapp/actions/user_actions.jsx:424-438 | nothing is deleted iff every theme name is `''` or the team id |
| UserActions.ThemeCleanupCalls | webapp/actions/user_actions.jsx:418-442 | no call for a team theme while more than one theme preference exists; otherwise one `deletePreferences` iff something is to be deleted |
| UserActions.OnThemeSaved | webapp/actions/user_actions.jsx:415-445 | the loop issues the clean-up calls, and `onSuccess()` fires exactly once |
| UserActions.SaveTheme | webapp/actions/user_actions.jsx:396-413 | one save of the theme record first; on a truthy reply with `onSuccess`, the clean-up calls and success; on a null reply, the error callback |
| EmojiPicker.AliasesOf | webapp/components/emoji_picker/emoji_picker.jsx:167 | the aliases when present, even an empty list; otherwise the name's characters as one-character strings |
| EmojiPicker.AnyAliasContains | webapp/components/emoji_picker/emoji_picker.jsx:164-172 | the alias loop finds a match iff some alias contains the filter |
| EmojiPicker.NoAliasesMatch | webapp/components/emoji_picker/emoji_picker.jsx:167-168 | an emoji without aliases matches a non-empty filter iff the filter is one character that occurs in its name |
| EmojiPicker.CategoryIndices | webapp/components/emoji_picker/emoji_picker.jsx:147-155 | for `recent` every recent position, in strictly decreasing order; for an unknown category none |
| EmojiPicker.Candidates | webapp/components/emoji_picker/emoji_picker.jsx:147-163 | one candidate per index, each a recent emoji for `recent` and a system emoji otherwise; none for an unknown category |
| EmojiPicker.RecentListedNewestFirst | webapp/components/emoji_picker/emoji_picker.jsx:147-160 | `recent` walks the recent emojis in reverse order, most recent first |
| EmojiPicker.SystemMatchesSpec | webapp/components/emoji_picker/emoji_picker.jsx:156-177 | with a non-empty filter an emoji is listed iff some alias contains the filter; with an empty filter every candidate is listed, in order |
| EmojiPicker.CustomMatchesSpec | webapp/components/emoji_picker/emoji_picker.jsx:192-197 | a custom emoji is listed iff its name contains the filter |
| EmojiPicker.CustomAppendedAfterSystem | webapp/components/emoji_picker/emoji_picker.jsx:192-213 | in `custom` the matching custom emojis come after the system ones; no other category adds any |
| EmojiPicker.RenderCategory | webapp/components/emoji_picker/emoji_picker.jsx:142-225 | the loops yield the category's listing; the header is rendered iff there is at least one item |
| EmojiPicker.HeaderBottom | webapp/components/emoji_picker/emoji_picker.jsx:125-130 | with a non-negative height, margin and padding, a header's bottom is not above its top |
| EmojiPicker.FirstVisible | webapp/components/emoji_picker/emoji_picker.jsx:124-140 | the first category, in bar order, with `headerBottom - contentTopPadding >= scrollTop`, or none |
| EmojiPicker.CategoryClickScrollTop | webapp/components/emoji_picker/emoji_picker.jsx:76-86 | clicking the first category scrolls to 0; any other scrolls to its header's `offsetTop` |
| EmojiPicker.ClickThenScrollHighlights | webapp/components/emoji_picker/emoji_picker.jsx:76-140 | with stacked headers each at least as tall as the top padding, a positive top padding and the first header at a non-negative offset, the first visible header at the offset the click writes is the clicked category's, so `Highlighted`, what handleScroll leaves highlighted when the list is not at its end, is the clicked category whatever was highlighted before |
| EmojiPicker.EmojiPicker.constructor | webapp/components/emoji_picker/emoji_picker.jsx:61-65 | the initial state is category `recent`, an empty filter and no selection |
| EmojiPicker.EmojiPicker.HandleFilterChange | webapp/components/emoji_picker/emoji_picker.jsx:88-90 | the filter becomes the input's value |
| EmojiPicker.EmojiPicker.HandleItemOver | webapp/components/emoji_picker/emoji_picker.jsx:92-95 | the hovered emoji is selected |
| EmojiPicker.EmojiPicker.HandleItemUnmount | webapp/components/emoji_picker/emoji_picker.jsx:101-106 | the selection is cleared iff the unmounted emoji is the selected one |
| EmojiPicker.EmojiPicker.HandleScroll | webapp/components/emoji_picker/emoji_picker.jsx:112-141 | the category becomes `Highlighted`: at the end of the list `custom`; otherwise the first visible category, with setState only when it differs, and nothing changes when none is visible |
| EmojiPicker.PickerStyle | webapp/components/emoji_picker/emoji_picker.jsx:302-318 | no style without one or at left 0 or top 0; for top/bottom only top, bottom and right = rightOffset; otherwise a copy; topOffset is added to top |
| EmojiPickerOverlay.ChoosePlacement | webapp/components/emoji_picker/emoji_picker_overlay.jsx:29-41 | top iff `top > 422`; else bottom iff `innerHeight - bottom > 436`; else left, one of the placements the picker accepts |
| EmojiPickerOverlay.Step | webapp/components/emoji_picker/emoji_picker_overlay.jsx:27-45 | the placement is recomputed on a hidden-to-shown update, and left unchanged on any other |
| EmojiPickerOverlay.RunWithoutRevealKeepsPlacement | webapp/components/emoji_picker/emoji_picker_overlay.jsx:27-28 | over any sequence of updates without a hidden-to-shown transition the placement never changes |
| EmojiPickerOverlay.StayingShownKeepsPlacement | webapp/components/emoji_picker/emoji_picker_overlay.jsx:27-28 | while the overlay stays shown, the placement stays put |
| EmojiPickerOverlay.Overlay.constructor | webapp/components/emoji_picker/emoji_picker_overlay.jsx:19-25 | the initial placement is top |
| EmojiPickerOverlay.Overlay.WillUpdate | webapp/components/emoji_picker/emoji_picker_overlay.jsx:27-45 | the new state is `Step` of the old one |

## Left out

- Asynchrony. The `.then` chains, `requestAnimationFrame` and event-loop ordering are not modelled. A call's reply is a parameter, and calls are listed in the order they are issued.
  - The populate step of loadProfilesForDM is taken to run after `getProfilesByIds` settles. A Redux thunk resolves rather than rejects.
  - In loadNewDMIfNeeded and loadNewGMIfNeeded the stores once `getChannelAndMyMember` has resolved are an input (`later`). That the thunk puts the fetched channel and member into them is code in mattermost-redux, which is not part of this model; `WithFetched` is what it is taken to do.
  - UserActions.LoadProfilesForDM: a throw inside the `.then` of `getProfilesByIds` rejects that promise rather than reaching the caller; the model reports the throw (`asWritten.threw`) the same way in both branches.
- The Redux store, `dispatch`/`getState`, the Flux stores and the REST clients. Their code is not part of this model.
  - The stores are the `Stores` snapshot.
  - `PreferenceStore.getBool` is taken to read a stored value as true exactly when it is `'true'`. A value without an explicit default reads as falsy, the same as `false`.
  - `getDirectChannelName` + `ChannelStore.getByName` are the `dmChannelWith` map. It is independent of `channels` in the model, though both read the same ChannelStore. The ids the populate step of loadProfilesForDM receives come from DMs that `getChannels()` listed, so its throw is reached only if `getByName` then misses one of them, for instance when the channel leaves the store while `getProfilesByIds` is in flight; one snapshot cannot show that.
  - `getUserIdFromChannelName` is a function parameter.
  - `Constants.MIN_USERS_IN_GM` and `MAX_USERS_IN_GM` are parameters, since utils/constants.jsx is not part of this model.
- `getState().requests.<request>.error` is taken to be present when a reply is null. An absent one would make the wrapper throw.
- UserActions.LoadChannelMembersForProfilesMap: does not fix the order of the requested ids, because `for (pid in profiles)` follows the object's key order, which a Dafny map does not have. It states which ids are requested and that each appears once.
- Js.KeysInserted: does not model JavaScript listing integer-like keys first in numeric order. Server ids are 26-character strings, not integers.
- The callbacks that `getChannelMembersForUserIds` receives fire inside channel_actions.jsx, which is not part of this model. The outcome records them as handed on, with which of the two the caller gave (`Forwarded(success, error)`).
- `populateChannelWithProfiles` and what `getProfilesInChannel` resolves with (the per-channel profile cache and `emitInChannelChange`) are not modelled. Only the call is.
- The theme object and `JSON.stringify` are not modelled: the saved value is a string parameter. The names in `PreferenceStore.getCategory(CATEGORY_THEME)` are a sequence in the map's iteration order. They are the keys of a Map, so none repeats, and `|themeNames| > 1` in `UserActions.ThemeCleanupCalls` and `UserActions.OnThemeSaved` stands for `themePreferences.size > 1`; the model does not require distinct names, so for a sequence with repeats it counts entries, not keys.
- The other action creators in user_actions.jsx are not modelled one by one:
  - generateMfaSecret, updateUserNotifyProps, updateUserRoles, activateMfa, deactivateMfa, updateActive, updatePassword, verifyEmail, resendVerification, createUserWithInvite and uploadProfileImage follow the shared rule of `OnReply`, as `UpdateUser` does.
  - switchFromLdapToEmail and resetPassword follow the same rule, and also log out or navigate on a truthy reply; that is not modelled.
  - autocompleteUsersInChannel, autocompleteUsersInTeam and autocompleteUsers follow `OnAnyReply`; the team they pass (the channel's `team_id`, else the current team) is not modelled.
  - loadMe, loadMeAndConfig, loadProfilesAndTeamMembers, loadProfilesAndTeamMembersAndChannelMembers, loadTeamMembersAndChannelMembersForProfilesList, loadProfilesForSidebar and loadMyTeamMembers only chain other actions; getAuthorizedApps and deauthorizeOAuthApp hand the REST client's callbacks straight on.
- `loadStatusesForProfilesList` / `loadStatusesForProfilesMap` after a search or a page load live in status_actions.jsx, which is not part of this model. `UserActions.SearchUsers` assumes that `loadStatusesForProfilesList(null)` returns without throwing, so that the success callback still runs on a null reply. The extra `options` of the searches are not modelled.
- UserActions.AutoResetStatus: the auto-reset preference is an input (what getBool in mattermost-redux returns), since that selector is not part of this model. The status is an input too, None standing for the null a failed getStatus resolves with; the TypeError is the `threw` flag, not an exception value.
- Emoji picker input from the DOM and CSS.
  - The `scrollPct > 99.0` test is floating point; it is the boolean `scrolledToEnd`.
  - `getComputedStyle` and `parseInt` of CSS lengths are foreign calls; the header geometry and the padding are integer inputs.
  - `Emoji.Emojis`, `EmojiIndicesByCategory` and EmojiStore's recent and custom emojis are parameters. Every category index is taken to point into `Emoji.Emojis`.
- EmojiPicker.ClickThenScrollHighlights: takes the offset handleCategoryClick writes to be read back unchanged by handleScroll, with the list not at its end. A browser clamps `scrollTop` to `scrollHeight - clientHeight`, so in a list too short to scroll that far the first visible header wins instead, and at the end of the list the `scrollPct > 99.0` branch selects `custom`.
- EmojiPicker.EmojiPicker.HandleItemUnmount: compares emojis by value, where the source compares object identity (`===`). Two equal emoji objects are not told apart.
- An emoji with neither `aliases` nor `name` would throw; the model gives every emoji a name string.
- `handleItemOut` and its 500 ms timer, `handleItemClick` (it only forwards to `onEmojiClick`), focusing the search box, `renderPreview`, the item keys and all JSX markup are not modelled.
- EmojiPicker.PickerStyle: models only the left, top, bottom and right fields of the style, and integer positions.
- The overlay's `target().getBoundingClientRect()` and `window.innerHeight` are inputs of an `Update`.
- EmojiPickerOverlay.ChoosePlacement: the bounding box's `top` and `bottom` are integers here, where the browser gives fractional CSS pixels; the comparisons with 422 and 436 are the same for whole-pixel values only.
- webapp/components/rhs_comment.jsx and webapp/components/rhs_root_post.jsx (render code), api4/command_test.go (tests against a live server) and api/webrtc.go (HTTP, HMAC and clock) are not part of this model.

## Findings

| source | as written | input that shows it | evidently intended | confidence | as-written member | corrected member |
|---|---|---|---|---|---|---|
| webapp/actions/user_actions.jsx:228-230 | `channel.id` is read on line 229, before `channel &&` is tested on line 230. A user id whose DM channel is not in ChannelStore makes `getByName` return undefined, the property read throws a TypeError, and the loop ends early with the remaining ids unprocessed | `userIds = ["u1"]` with no DM channel for `u1` in the store | skip that id, as the guard on line 230 intends | not executed | UserActions.PopulateAsWrittenThrowsForUnknownChannel | UserActions.PopulateDMChannelsWithProfiles |
