# SpinX front-end rules in Dafny

A model of the deterministic rules of SpinX, a React web app in which tennis
and pickleball players find each other, join groups and locate courts.

Each page handler that computes a new value from an old one is a function on
values. Examples are a profile edit, a create-group form update and an
availability edit. The result cache of the court search service is a class
whose map field is updated in place. So are the two pages that write to the
document store: the requests page and the onboarding page. The store
collections they touch are fields of the class.

Modules follow the source files:

| module | source file |
|---|---|
| `Common` | shared helpers: JavaScript truthiness, `trim`, `includes`, `filter`, `map` (also one whose callback may throw); the signed-in account |
| `CourtService` | `src/services/courtService.ts` |
| `Requests` | `src/pages/Requests.tsx` |
| `CreateGroup` | `src/pages/CreateGroup.tsx` |
| `AvailabilityEditor` | `src/components/AvailabilityEditor.tsx` |
| `Defaults` | `src/utils/defaults.ts` |
| `Profile` | `src/pages/Profile.tsx` |
| `Onboarding` | `src/pages/Onboarding.tsx` |
| `HomePage` | `src/pages/HomePage.tsx` |
| `Courts` | `src/pages/Courts.tsx` |
| `GroupDetails` | `src/pages/GroupDetails.tsx` |
| `GroupChat` | `src/components/GroupChat.tsx` |
| `PlayerAvailabilityDisplay` | `src/components/PlayerAvailabilityDisplay.tsx` |
| `PlayRequestDialog` | `src/components/PlayRequestDialog.tsx` |
| `Navigation` | `src/components/Navigation.tsx` |
| `App` | `src/App.tsx` |

Some values come from outside the app. The clock, the outcome of a store
write, the outcome of a places search and what `parseInt` returned are all
parameters.

## Model

| member | source | states |
|---|---|---|
| CourtService.DeterminePriceInfo | src/services/courtService.ts:39-70 | a place is free exactly when no price text is attached; the text is only ever "Membership/Fee Required" or "Call for rates" |
| CourtService.PriceClassification | src/services/courtService.ts:44-69 | a free signal gives free; otherwise a paid signal gives "Membership/Fee Required"; otherwise "Call for rates" |
| CourtService.FreeBeforePaid | src/services/courtService.ts:45-62 | a name with both "community" and "club" has a paid signal and is still classified free, because the free test runs first |
| CourtService.VenueTypes | src/services/courtService.ts:73 | the detail record's types win when present; otherwise the place's types, or none |
| CourtService.DetermineVenueType | src/services/courtService.ts:72-109 | an indoor keyword in the name or vicinity makes the venue indoor; a venue is indoor only by such a keyword or a gym/health type |
| CourtService.VenueTypeFallsBackOnTypes | src/services/courtService.ts:103-108 | with no keyword hit, the venue is indoor exactly when the types include gym or health |
| CourtService.OutdoorKeywordBeatsTypes | src/services/courtService.ts:99-101 | an outdoor keyword without an indoor one makes the venue outdoor, whatever the types say |
| CourtService.RecreationAreaIsIndoor | src/services/courtService.ts:78-100 | a place mentioning "recreation area" is classified indoor, because it also contains the indoor keyword "recreation" |
| CourtService.RedundantOutdoorKeywords | src/services/courtService.ts:84-101 | dropping "recreation area" and "community park" from the outdoor keywords changes no classification |
| CourtService.EstimateCourtCount | src/services/courtService.ts:219-225 | 8 exactly for a stadium, 4 exactly for a park that is not a stadium, otherwise 2; no estimate when the place has no types array |
| CourtService.BuildCourt | src/services/courtService.ts:146-173 | a record exists exactly when the count can be estimated; it carries the searched sport, the vicinity or "Location not available", and a price that is free exactly when it has no text |
| CourtService.SportsHaveSeparateEntries | src/services/courtService.ts:116 | a tennis search and a pickleball search at the same coordinates use different cache keys |
| CourtService.StoredEntryLifetime | src/services/courtService.ts:8-121 | an entry stored at time t is served exactly while now < t + 86 400 000 ms; storing leaves other keys' freshness alone |
| CourtService.ExpiryIsPermanent | src/services/courtService.ts:119 | once an entry is stale it stays stale as time moves on |
| CourtService.CourtCache.constructor | src/services/courtService.ts:16 | the cache starts empty |
| CourtService.CourtCache.Lookup | src/services/courtService.ts:119-121 | a hit is returned exactly when the entry is younger than 24 hours, and it is that entry's data |
| CourtService.CourtCache.Store | src/services/courtService.ts:186-189 | the key now maps to the data with the store time; every other key is unchanged |
| CourtService.BuildCourts | src/services/courtService.ts:141-178 | the places' records are built exactly when every place has types, one per place in order |
| CourtService.BuiltCourtsAreOfTheSport | src/services/courtService.ts:141-178 | every court of a completed search carries the searched sport and is free exactly when it has no price text |
| CourtService.CourtCache.Search | src/services/courtService.ts:111-198 | a fresh entry answers with the cache unchanged; a search whose places all have types is cached under the coordinates-and-sport key and returned; a place without types leaves the promise unsettled and a failed search rejects with "Failed to fetch courts", both leaving the cache alone; it resolves exactly when the entry is fresh or every place has types |
| Requests.QueriesSelectExactly | src/pages/Requests.tsx:48-59 | the received list is exactly the pending requests addressed to the user, the sent list exactly the user's own requests, both in store order |
| Requests.FindById | src/pages/Requests.tsx:88 | no result exactly when no entry has the id; a result is the first entry with that id |
| Requests.Respond | src/pages/Requests.tsx:92-99 | the answer writes the action word as status, shares contact only on accept, and fills the receiver's name (default "Anonymous"), email and phone; no other field changes |
| Requests.AnswerInStore | src/pages/Requests.tsx:92-99 | the store keeps its length; exactly the documents with the id are answered |
| Requests.AcceptNotification | src/pages/Requests.tsx:101-112 | the notification goes to the sender, refers to the request, is unread and has kind "request_accepted" |
| Requests.RemoveById | src/pages/Requests.tsx:115 | no entry with the answered id is left |
| Requests.RemoveByIdKeepsOthers | src/pages/Requests.tsx:115 | every other entry stays, with its multiplicity and order |
| Requests.RenderContactInfo | src/pages/Requests.tsx:130-143 | contact is shown exactly for an accepted request with contact shared: the sender's on a received card, the receiver's on a sent card |
| Requests.StatusChipColor | src/pages/Requests.tsx:203-207 | success exactly for "accepted", error exactly for "declined", otherwise default |
| Requests.AnsweredRequestHidesContact | src/pages/Requests.tsx:93-131 | a request answered by the handler never shows contact on either side, has a default-coloured chip and shows no answer buttons |
| Requests.RespondCorrected | src/pages/Requests.tsx:92-99 | the write with the status "accepted" or "declined"; contact is shared exactly on accept; no other difference from the write as written |
| Requests.CorrectedAnswerSharesContact | src/pages/Requests.tsx:130-207 | with the corrected status, contact shows exactly on accept, with the receiver's details on the sent card; the chip colour follows the answer |
| Requests.ReceivedCardsNeverShowContact | src/pages/Requests.tsx:130-207 | a received card is always pending, so it never shows contact details and always offers the answer buttons |
| Requests.RequestsPage.constructor | src/pages/Requests.tsx:38-41 | both lists and both messages start empty |
| Requests.RequestsPage.FetchRequests | src/pages/Requests.tsx:48-83 | the lists become the two query results; the store and messages are unchanged |
| Requests.RequestsPage.HandleRequest | src/pages/Requests.tsx:85-128 | an unknown id or no user changes nothing; a missing document sets "Failed to accept/decline request"; otherwise the answer is written, the sender notified on accept, the entry dropped and the success text set |
| Requests.RequestsPage.WriteAnswer | src/pages/Requests.tsx:91-119 | the answer is written to the store, the sender notified exactly on accept, the entry dropped from the received list and the matching success text set; the sent list and error are kept |
| Requests.RefetchDropsAnswered | src/pages/Requests.tsx:50-53 | after an answer is written, a refetch does not list that request as received |
| CreateGroup.HandleSubmit | src/pages/CreateGroup.tsx:94-123 | submission navigates to "/groups" exactly when name, sport, location and skill level are all set; otherwise it sets the required-fields error |
| CreateGroup.UntouchedFormIsRejected | src/pages/CreateGroup.tsx:71-100 | submitting the initial form is rejected |
| CreateGroup.HandleAddTag | src/pages/CreateGroup.tsx:125-133 | a tag is appended exactly on Enter with a non-blank trimmed text not already present, and then the input is cleared; nothing else changes |
| CreateGroup.HandleDeleteTag | src/pages/CreateGroup.tsx:135-140 | no tag equal to the deleted one remains; other fields are unchanged |
| CreateGroup.DeleteTagKeepsOthers | src/pages/CreateGroup.tsx:138 | every other tag stays, in order |
| CreateGroup.TagsStayGood | src/pages/CreateGroup.tsx:125-140 | any sequence of tag edits keeps the tags distinct, trimmed and non-blank |
| CreateGroup.HandleAddSchedule | src/pages/CreateGroup.tsx:154-167 | one entry (Monday 09:00 to 10:00, weekly) is appended after the old ones |
| CreateGroup.HandleScheduleChange | src/pages/CreateGroup.tsx:169-176 | only entry `index` changes, by the given edit; the list keeps its length |
| CreateGroup.EditChangesOneField | src/pages/CreateGroup.tsx:173 | an edit changes exactly the field it names |
| CreateGroup.OutOfRangeEditIsNoOp | src/pages/CreateGroup.tsx:172-174 | an index outside the list leaves the form unchanged |
| CreateGroup.HandleRemoveSchedule | src/pages/CreateGroup.tsx:178-183 | an index in range removes exactly that entry; any other index changes nothing |
| CreateGroup.ClampMaxMembers | src/pages/CreateGroup.tsx:275 | the limit is at least 1; a parsed value of at least 1 is kept; NaN, zero and negatives give 1 |
| CreateGroup.HandleMaxMembersChange | src/pages/CreateGroup.tsx:273-276 | only the member limit changes, and it is at least 1 |
| CreateGroup.InitialFormInvariant | src/pages/CreateGroup.tsx:71-183 | from the initial form, any sequence of edits keeps the member limit at least 1 and the tags good |
| AvailabilityEditor.HandleDayToggle | src/components/AvailabilityEditor.tsx:34-45 | the day's availability flips, its ranges are kept, and nothing else changes |
| AvailabilityEditor.ToggleTwiceRestores | src/components/AvailabilityEditor.tsx:34-45 | toggling a day twice gives back the original value |
| AvailabilityEditor.AddTimeRange | src/components/AvailabilityEditor.tsx:47-58 | 09:00 to 17:00 is appended to the day's ranges (missing ranges count as none); nothing else changes |
| AvailabilityEditor.VisibleRanges | src/components/AvailabilityEditor.tsx:80-82 | rows are drawn only for an available day, and then for each of its ranges |
| AvailabilityEditor.ToggleOffKeepsRanges | src/components/AvailabilityEditor.tsx:34-82 | switching a day off hides its rows but keeps its ranges, and switching it back shows the same rows |
| AvailabilityEditor.EditRangeStart | src/components/AvailabilityEditor.tsx:87-97 | only the start of row `index` of that day changes |
| AvailabilityEditor.EditRangeEnd | src/components/AvailabilityEditor.tsx:105-115 | only the end of row `index` of that day changes |
| AvailabilityEditor.DeleteRange | src/components/AvailabilityEditor.tsx:121-130 | row `index` is removed and the others keep their order; missing ranges stay missing |
| AvailabilityEditor.AddThenDeleteLast | src/components/AvailabilityEditor.tsx:47-130 | adding a range and deleting the last row restores the day's ranges |
| AvailabilityEditor.SetPreferredTimes | src/components/AvailabilityEditor.tsx:155 | only the preferred time of day changes |
| AvailabilityEditor.SetNotes | src/components/AvailabilityEditor.tsx:171 | only the notes change |
| AvailabilityEditor.DayLabel | src/components/AvailabilityEditor.tsx:77 | the day key with only its first letter upper-cased |
| Defaults.DefaultAvailability | src/utils/defaults.ts:3-15 | every day unavailable with no ranges, preferred time flexible, notes empty |
| Defaults.DefaultShowsNoRanges | src/utils/defaults.ts:3-15 | the editor shows no range rows for the default value |
| Defaults.FirstRangeOnDefault | src/utils/defaults.ts:5-11 | the first range added to a default day is the only one, and the day stays unavailable |
| Profile.LevelName | src/pages/Profile.tsx:232-234 | every level's text is non-empty |
| Profile.ToggleSport | src/pages/Profile.tsx:94-101 | an absent sport is appended; a present one is removed everywhere and the list gets shorter |
| Profile.ToggleSportMembership | src/pages/Profile.tsx:97-99 | the toggled sport's membership flips and every other sport's is kept |
| Profile.ToggleSportKeepsOrder | src/pages/Profile.tsx:97-99 | removal keeps the others in order; adding keeps the old list as a prefix |
| Profile.ToggleKeepsDistinct | src/pages/Profile.tsx:94-101 | toggling never introduces a repeated sport |
| Profile.ToggleTwiceRestoresMembership | src/pages/Profile.tsx:94-101 | toggling the same sport twice restores which sports are selected |
| Profile.AtMostTwoSports | src/pages/Profile.tsx:94-101 | a list without repeats has at most two sports |
| Profile.InitialState | src/pages/Profile.tsx:51-61 | the profile starts with the account's name, email and phone, or empty text when unset; the photo when set and none otherwise; Beginner level, no sports and default availability |
| Profile.MergeCurrentUser | src/pages/Profile.tsx:64-74 | only truthy account fields overwrite; nothing happens without an account; other fields are kept |
| Profile.MergeIsIdempotent | src/pages/Profile.tsx:64-74 | merging the same account twice equals merging it once |
| Profile.MergeNeverBlanks | src/pages/Profile.tsx:68-71 | a merge never empties a field the profile already had |
| Profile.ClickChip | src/pages/Profile.tsx:247-258 | nothing happens outside edit mode; 'Both' selects tennis then pickleball; a single chip toggles its sport; only the sports change |
| Profile.BothHighlightIffEach | src/pages/Profile.tsx:259-276 | 'Both' is highlighted exactly when both single chips are |
| Profile.ClickFlipsHighlight | src/pages/Profile.tsx:247-276 | in edit mode, 'Both' highlights every chip and a single chip flips its own highlight only |
| Profile.ClickKeepsDistinct | src/pages/Profile.tsx:247-258 | chip clicks keep the sports free of repeats |
| Profile.HandleSave | src/pages/Profile.tsx:103-117 | edit mode ends with the success message, no error and the profile unchanged |
| Profile.ShowsIncompleteAlert | src/pages/Profile.tsx:146 | the incomplete-profile alert never shows, because a level is always set |
| Onboarding.InitialForm | src/pages/Onboarding.tsx:32-40 | the form starts with the account's name and phone, Beginner level, no sports and default availability |
| Onboarding.UntouchedFormIsRejected | src/pages/Onboarding.tsx:32-58 | an untouched form fails the required-field check |
| Onboarding.DocumentFor | src/pages/Onboarding.tsx:65-71 | the stored document holds the form, the account's email and photo, the creation time and the completion flag |
| Onboarding.OnboardingPage.constructor | src/pages/Onboarding.tsx:29-40 | the page starts with the initial form, not loading and no error |
| Onboarding.OnboardingPage.HandleSportToggle | src/pages/Onboarding.tsx:42-49 | the sports are toggled as on the profile page; nothing else changes |
| Onboarding.OnboardingPage.HandleSubmit | src/pages/Onboarding.tsx:51-80 | no account does nothing; an incomplete form sets the missing-fields error; a successful write stores the document under the account id and navigates home; a failed write sets "Failed to save profile" |
| HomePage.HandleViewChange | src/pages/HomePage.tsx:24-28 | a null choice keeps the view; any other choice becomes the view |
| HomePage.HandleSportChange | src/pages/HomePage.tsx:30-32 | the sport filter becomes the chosen one and the view is kept |
| HomePage.FilterPlayers | src/pages/HomePage.tsx:125-128 | 'all' shows every player; otherwise every shown player plays the sport |
| HomePage.FilterPlayersExact | src/pages/HomePage.tsx:125-128 | a player is shown exactly when listed and matching, in list order |
| HomePage.GroupTypeField | src/pages/HomePage.tsx:133 | a group has no `type` field, so reading it gives undefined |
| HomePage.FilterGroupsAsWritten | src/pages/HomePage.tsx:130-135 | the group filter as written: 'all' shows every group |
| HomePage.SportFilterHidesEveryGroup | src/pages/HomePage.tsx:130-135 | with a sport selected, the filter as written shows no group at all |
| HomePage.FilterGroups | src/pages/HomePage.tsx:130-135 | the corrected filter: 'all' shows every group; otherwise every shown group is of that sport |
| HomePage.FilterGroupsExact | src/pages/HomePage.tsx:130-135 | with the corrected filter a group is shown exactly when listed and of the selected sport, in list order |
| HomePage.GroupFiltersDiffer | src/pages/HomePage.tsx:130-135 | every listed group is shown by the corrected filter for its sport and hidden by the filter as written |
| HomePage.RenderGroupCardAsWritten | src/pages/HomePage.tsx:67-86 | the group card as written throws for every group, because its caption reads the undefined `type` |
| HomePage.RenderGroupCard | src/pages/HomePage.tsx:67-86 | the corrected card keeps the group's id, name and location, captions it with the capitalised sport and prints the member count |
| Common.MapAll | src/pages/HomePage.tsx:130-135 | a list renders exactly when every element renders, and then holds each element's rendering in order |
| HomePage.Shown | src/pages/HomePage.tsx:123-136 | the players view lists filtered players; the groups view crashes exactly when the filter as written lets a group through, and otherwise shows no card |
| HomePage.CommunitiesViewShowsNoGroup | src/pages/HomePage.tsx:123-136 | the groups view never shows a group: with a sport selected it is empty, with 'all' it crashes exactly when there are groups |
| HomePage.ShownCorrected | src/pages/HomePage.tsx:123-136 | with both group defects corrected the page never crashes and the groups view shows the card of each group of the sport, in order |
| HomePage.CorrectedCommunitiesView | src/pages/HomePage.tsx:123-136 | with the corrections every listed group of the selected sport has its card shown, and every shown card is such a group's |
| HomePage.InitialListing | src/pages/HomePage.tsx:21-22 | the page opens on every player |
| Courts.FilteredCourts | src/pages/Courts.tsx:64-66 | 'all' shows every court; otherwise every shown court is of the selected sport |
| Courts.FilteredCourtsKeepMatches | src/pages/Courts.tsx:64-66 | a court is shown exactly when listed and matching, with its multiplicity and in order |
| GroupDetails.HandleJoin | src/pages/GroupDetails.tsx:74-82 | the status always becomes pending |
| GroupDetails.RenderJoinButton | src/pages/GroupDetails.tsx:84-118 | the button calls the join handler exactly when no request was made and is disabled exactly while pending; captions follow the status |
| GroupDetails.Step | src/pages/GroupDetails.tsx:48-118 | choosing a tab sets it; pressing the button moves 'none' to pending and leaves any other status alone |
| GroupDetails.NeverMember | src/pages/GroupDetails.tsx:49-82 | no event sequence reaches 'member', and pending stays pending |
| GroupDetails.ReachableStatuses | src/pages/GroupDetails.tsx:49-82 | from the opening state only 'none' and 'pending' are reachable |
| GroupDetails.TabLabels | src/pages/GroupDetails.tsx:152-155 | About, Members and Schedule come first; Chat is listed exactly for members |
| GroupDetails.ChatShownWithoutTab | src/pages/GroupDetails.tsx:140-211 | in every reachable state the Chat tab is missing while the chat is on the page, and the pending alert shows exactly once the button was pressed |
| GroupDetails.PendingIffPressed | src/pages/GroupDetails.tsx:74-118 | the status is pending exactly when it started pending or the button was pressed |
| GroupChat.HandleSend | src/components/GroupChat.tsx:52-62 | a blank message is kept; any other message is cleared |
| GroupChat.SendDisabled | src/components/GroupChat.tsx:140 | the send button is disabled exactly when sending would do nothing |
| GroupChat.BlankIffAllSpace | src/components/GroupChat.tsx:53 | a message is blank exactly when every character is whitespace |
| GroupChat.HandleKeyPress | src/components/GroupChat.tsx:64-69 | Enter without Shift prevents the default and sends; any other key leaves the message alone |
| GroupChat.DividersBeforeLast | src/components/GroupChat.tsx:119 | each of the first k messages before the last is followed by a divider |
| GroupChat.DividerCount | src/components/GroupChat.tsx:119 | n messages get n - 1 dividers, and the last message none |
| PlayerAvailabilityDisplay.GetAvailableDays | src/components/PlayerAvailabilityDisplay.tsx:13-17 | there are no more day labels than day keys, and each label is the label of an available day |
| PlayerAvailabilityDisplay.AvailableDaysInKeyOrder | src/components/PlayerAvailabilityDisplay.tsx:13-17 | the labels appear in the order of the record's keys |
| PlayerAvailabilityDisplay.DayLabelInjective | src/components/PlayerAvailabilityDisplay.tsx:16 | different days get different labels |
| PlayerAvailabilityDisplay.AvailableDaysExact | src/components/PlayerAvailabilityDisplay.tsx:13-17 | a day's label is listed exactly when the day is available |
| PlayerAvailabilityDisplay.EveryDayInKeyOrder | src/components/PlayerAvailabilityDisplay.tsx:13-17 | when every day is available, every day's label is listed, in key order |
| PlayerAvailabilityDisplay.Tooltip | src/components/PlayerAvailabilityDisplay.tsx:52 | the notes when non-empty, otherwise "No additional notes" |
| PlayerAvailabilityDisplay.ChipLabel | src/components/PlayerAvailabilityDisplay.tsx:55 | the label is the preferred time of day, the separator, then the available days joined by ", " |
| PlayerAvailabilityDisplay.AvailableDayNamedInChip | src/components/PlayerAvailabilityDisplay.tsx:13-55 | every available day's label occurs in the chip label |
| PlayerAvailabilityDisplay.NoDaysLabel | src/components/PlayerAvailabilityDisplay.tsx:13-55 | with no available day the label is the preferred time and the separator alone |
| PlayerAvailabilityDisplay.DefaultChipLabel | src/components/PlayerAvailabilityDisplay.tsx:52-55 | the default value shows "flexible" and the separator, with the no-notes tooltip |
| PlayRequestDialog.HandleSubmit | src/components/PlayRequestDialog.tsx:30-33 | one submit call with the typed message, or "Would you like to play <sport>?" when empty, then the message is cleared |
| PlayRequestDialog.SubmitOnceWithoutClosing | src/components/PlayRequestDialog.tsx:30-33 | submitting calls the submit callback once, never the close callback, and clears the message last |
| PlayRequestDialog.SentMessageNonEmpty | src/components/PlayRequestDialog.tsx:31 | the message handed to the callback is never empty |
| Navigation.RouteFor | src/components/Navigation.tsx:12-27 | tabs 0 to 3 go to home, groups, courts and profile; any other value goes home |
| Navigation.HandleChange | src/components/Navigation.tsx:10-28 | the selected tab becomes the new value and exactly one navigation to its route happens |
| Navigation.TabsLeadToDistinctRoutes | src/components/Navigation.tsx:12-24 | the four tabs lead to four different routes |
| Navigation.EveryRouteIsATab | src/components/Navigation.tsx:12-27 | every navigation lands on one of the four tab routes |
| App.Resolve | src/App.tsx:50-61 | signed out, /login shows the login screen and /signup the sign-up screen, both without the layout; signed in they redirect home; onboarding and the protected pages need sign-in and otherwise redirect to login; only signed-in visitors get the layout |
| App.AtMostOneRedirect | src/App.tsx:50-61 | a redirect always lands on a page, never on a second redirect |
| App.AuthLayout | src/App.tsx:32-43 | the header is drawn except on the home page; the navigation bar always |
| App.SignedOutSeesNoLayout | src/App.tsx:24-61 | a signed-out visitor never sees the header or the navigation bar |

## Left out

- Document-store, authentication and Places API calls: the stores are in-memory fields, and the outcomes of calls are parameters (`writeSucceeds`, `outcome`, `completedAt`, `now`).
- Distance computation and the sort by distance in `searchNearbyCourts`: floating point. The places found are given already sorted by distance, and the courts keep their order.
- The cache key prints the coordinates as JavaScript numbers. Here they are strings, because float-to-text formatting is not modelled.
- The daily request counter `dailyRequests` and `lastReset`: they are declared but never read or updated.
- `parseInt` itself: `CreateGroup.ClampMaxMembers` takes what it returned, `None` standing for NaN.
- `toLowerCase` and `toUpperCase` map ASCII letters only; other Unicode case mappings are not modelled.
- `Object.entries` key order in `getAvailableDays`: it is the parameter `keyOrder`, because the record's key order depends on how the value was built.
- The separator in the availability chip label is kept as the three characters it is written with in the file. That text reads as a UTF-8 bullet decoded as Windows-1252.
- React Router matching details: matching is case-insensitive and allows a trailing slash. `App.IsGroupPath` matches exactly one non-empty segment.
- The `catch` branches of `handleSave` (profile), `handleSubmit` (create group), `handleSend` and `handleJoin`: their `try` blocks contain no call that can throw, so the branches are unreachable.
- Requests.RequestsPage.HandleRequest: the `fetchRequests()` the handler starts without awaiting is not part of it; call `FetchRequests` afterwards. `Requests.RefetchDropsAnswered` states what that refetch shows. A failure of the notification write after a successful update is not modelled; the store here only fails on a missing document.
- Requests.RequestsPage.FetchRequests: a failed query, which sets "Failed to load requests", is not modelled.
- Photo upload, image preview, PWA prompt, the header, login, sign-up and the authentication context: outside this model.
- Text-field setters for name, bio, zip code, phone and description are plain field assignments. Only the create-group ones are events in `CreateGroup.Step`.
- Court fields for display only (rating, photo, url, opening hours, phone, distance text) and the mock data on the pages.
- Styling, icons and layout of every page.

## Findings

| source | as written | input that shows it | evidently intended | confidence | as-written member | corrected member |
|---|---|---|---|---|---|---|
| src/pages/Requests.tsx:93 | the status written is the action word, 'accept' or 'decline', while the cards test for 'accepted' and 'declined' (lines 131, 204-205) | accepting any pending request: neither side ever sees the contact details and the sent card's chip stays grey | write 'accepted' or 'declined', the values the `PlayRequest` status type allows | high; not executed | Requests.AnsweredRequestHidesContact | Requests.CorrectedAnswerSharesContact |
| src/pages/HomePage.tsx:133 | the group filter compares `group.type`, which the `Group` type does not have (src/types/index.ts:11-23), with the selected sport | selecting Tennis on the groups view with any list of groups: no group is shown | compare `group.sport` | high; not executed | HomePage.SportFilterHidesEveryGroup | HomePage.FilterGroupsExact |
| src/pages/HomePage.tsx:74 | the group card captions itself with `group.type.charAt(0)`, and `type` is undefined on every group; line 77 also renders the `members` array of objects, which React rejects with an error | the groups view with 'all' selected and any non-empty list of groups: the render throws | caption with the capitalised `group.sport` and print `memberCount` | high; not executed | HomePage.CommunitiesViewShowsNoGroup | HomePage.CorrectedCommunitiesView |
