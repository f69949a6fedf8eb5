# ArTver Mini App — a verified model

ArTver is a Telegram Mini App for regional news. It has two halves:

- **Browser client.** A React single-page app resolves the Telegram user, asks the backend whether that user is registered, and routes between onboarding, home, settings and per-category news pages.
- **Backend.** A FastAPI service keeps users, support requests, scraped news and demo items in SQLite.

This project models the core rules of both halves in Dafny and proves what they guarantee.

- **Session and routing** (module `Session`). There are three identity sources: the parsed init-data user, the raw `initData` string, and the `tgWebAppData` URL parameter. They are abstract inputs: missing, malformed, or parsed with an optional id. The router's `init` effect is a class, `Session.Router`, with `loading`, `userExists` and the info requests it sent. The route table is a function of `loading`, `userExists` and a location.
- **Category selection** (module `Categories`). This covers the four category constants, the label lookup with fallback, and the toggle (remove every occurrence, or append).
- **Pages**. Each stateful page is a class whose fields are the page's React state: `StartPage.Page`, `SettingsPage.Page` and `CategoryNewsPage.Page`. Each event handler that changes page state is a method; the news-card click, which only navigates, is the function `CategoryNewsPage.Page.NewsClick` giving the navigation and its router state. The backend's answers to the page's requests are method parameters of type `UserClient.Reply`: the request rejects, or a response with its `ok` flag and its JSON body (absent when it does not parse). The home page is pure and is modelled as functions.
- **Backend handlers**. The database session is a class holding each table as a sequence of rows: `UserApi.Store`, `NewsStore.NewsTable` and `ItemsApi.ItemTable`. The state-changing handlers are methods that modify those classes. Save, update and the news ingestion state their new table as a specification function of the old one, and lemmas prove the promised properties of those functions. Support requests, item create and item delete state the new table directly in their contracts. The read-only news query is a function over the rows of the news table (`NewsApi.GetNews`). Examples of what is proved:
  - save, then info, reports the saved fields;
  - actualize never changes an old row and never stores a link twice;
  - the news query returns the newest 50 of a type, in strictly descending id order.

Where the code and its description differ, the model follows the code. For example:

- the onboarding page reads the info body even for a non-ok response;
- a news page opened without a category keeps its loading screen forever;
- an update with no fields still answers success.

## Model

| member | source | states |
|---|---|---|
| Categories.CategoryTypesAreTheFour | src/client/src/pages/StartPage.tsx:6-11 | the set of category types, derived from the onboarding list, is exactly `sport`, `first`, `history` and `tver` |
| Categories.CategoryLabel | src/client/src/pages/HomePage.tsx:131-140 | the four category types map to their fixed Russian labels; any other key is returned unchanged; the label differs from the key exactly for the four types |
| Categories.LabelsAgreeWithList | src/client/src/pages/StartPage.tsx:6-11 | every entry of the onboarding list is one of the four types and its label is the one the lookup gives |
| Categories.Without | src/client/src/pages/StartPage.tsx:20 | removing a category drops every occurrence of it (its multiset count becomes 0, others keep theirs), keeps no other element out, never grows the list, and is the identity when the category is absent; a one-element list is kept or emptied; with `WithoutConcat` this fixes the order of the kept elements |
| Categories.WithoutConcat | src/client/src/pages/StartPage.tsx:20 | removal distributes over concatenation, so the filter keeps the remaining categories in their original order |
| Categories.Toggle | src/client/src/pages/StartPage.tsx:17-25 | a present category is removed everywhere, the result being `Without`, whose order is fixed by its one-element case and `WithoutConcat`; an absent one is appended at the end; afterwards the category is present iff it was absent; membership of every other value is unchanged |
| Categories.WithoutAppended | src/client/src/pages/StartPage.tsx:20-22 | removing a just-appended absent category gives back the original list |
| Categories.ToggleTwiceAbsent | src/client/src/pages/StartPage.tsx:17-25 | toggling an absent category twice returns exactly the original list |
| Categories.ToggleTwicePresent | src/client/src/pages/StartPage.tsx:17-25 | toggling a present category twice moves it, once, to the end of the list |
| Categories.WithoutKeepsDistinct | src/client/src/pages/StartPage.tsx:20 | removing a category keeps a duplicate-free list duplicate-free |
| Categories.ToggleKeepsDistinct | src/client/src/pages/StartPage.tsx:17-25 | toggling keeps a duplicate-free selection duplicate-free |
| Categories.ToggleBounded | src/client/src/pages/StartPage.tsx:6-25 | toggling one of the four types in a duplicate-free selection of those types keeps it duplicate-free, within the four types, and at most 4 long |
| UserClient.GetUserByTgId | src/client/src/api/user.ts:1-5 | rejects exactly on a network error or an ok response whose body does not parse; resolves to null exactly for a non-ok response; otherwise resolves to the parsed body |
| UserClient.LoadedProfile | src/client/src/pages/HomePage.tsx:25-28 | a page keeps a profile exactly when the response is ok, parses, says `exists` and carries a `user`, and then it keeps that user (the same gate is used by the settings page) |
| Session.FirstAvailable | src/client/src/config/AppRouter.tsx:15-59 | reference definition of a prioritised fallback: null iff every source is skipped; otherwise the id of the first source that settles, all sources before it being skipped |
| Session.GetTelegramUserId | src/client/src/config/AppRouter.tsx:15-59 | a truthy `initDataUnsafe.user.id` is returned; the result is null iff no source yields a user; an id of 0 is never taken from the parsed user |
| Session.UrlStep | src/client/src/config/AppRouter.tsx:39-55 | the URL step gives null iff its payload did not parse, and otherwise the parsed user's id |
| Session.ResolutionOrder | src/client/src/config/AppRouter.tsx:19-55 | the resolution equals the first available of the three sources, in the order parsed user, `initData`, URL |
| Session.MalformedFallsThrough | src/client/src/config/AppRouter.tsx:25-55 | a source whose parse throws gives the same result as a missing source, for `initData` and for the URL |
| Session.ZeroIdIsAbsent | src/client/src/config/AppRouter.tsx:19-22 | a parsed user id of 0 behaves exactly like no parsed id |
| Session.RequestedId | src/client/src/config/AppRouter.tsx:64-73 | the info request is made only with a WebApp object and a truthy resolved id, and then always, with that id |
| Session.ExistsFlag | src/client/src/config/AppRouter.tsx:73-74 | `userExists` is updated exactly when the info response is ok and parses, and then to its `exists` flag |
| Session.SessionDecision | src/client/src/config/AppRouter.tsx:61-115 | the session goes home iff an id was requested and the ok, parsed info reply says `exists`; with no id it goes to onboarding |
| Session.Route | src/client/src/config/AppRouter.tsx:98-134 | the route table: while loading only the loading screen renders; the home page renders only for an existing user and onboarding only for a new one; every redirect goes to `/`, `/home` or `/onboarding`; properties in `RootDecides`, `GuardsComplementary`, `RedirectsSettle` |
| Session.Follow | src/client/src/config/AppRouter.tsx:104-134 | following redirects keeps the loading screen while loading, and reaches the home page only for an existing user and onboarding only for a new one |
| Session.RootDecides | src/client/src/config/AppRouter.tsx:104-115 | once loaded, `/` redirects to `/home` iff `userExists`, else to `/onboarding`, and one redirect later renders that page |
| Session.GuardsComplementary | src/client/src/config/AppRouter.tsx:118-129 | for either value of `userExists` exactly one of `/onboarding` and `/home` renders its page, and the other redirects to it |
| Session.RedirectsSettle | src/client/src/config/AppRouter.tsx:104-134 | from every location at most two redirects reach a rendered page, and an unknown path ends where `/` ends |
| Session.Router.constructor | src/client/src/config/AppRouter.tsx:12-13 | the router starts loading, with `userExists` false and no request sent |
| Session.Router.Init | src/client/src/config/AppRouter.tsx:61-96 | `loading` is false on every path; exactly the requested id is sent; `userExists` takes the reply's `exists` only when an id was sent and the reply is ok and parses, and otherwise keeps its value |
| Session.Router.Recheck | src/client/src/config/AppRouter.tsx:72-74 | an explicit existence re-check (the corrected half of the finding below): one more info request, and `userExists` takes the reply's `exists` when the reply is ok and parses |
| Session.Load | src/client/src/config/AppRouter.tsx:61-115 | a fresh load lands on home exactly when the session decision is home, else on onboarding; at most one info request is sent, and none without a resolved id |
| StartPage.InfoBody | src/client/src/pages/StartPage.tsx:34-37 | the page reads the info body whenever a response arrives and parses, regardless of its status |
| StartPage.Page.constructor | src/client/src/pages/StartPage.tsx:15 | the selection starts empty |
| StartPage.Page.ToggleCategory | src/client/src/pages/StartPage.tsx:17-25 | the selection becomes its toggle by the clicked category |
| StartPage.Page.OnSubmit | src/client/src/pages/StartPage.tsx:27-62 | an empty selection sends nothing and stays; otherwise the info check is sent first; an existing user goes home with no save; a new user gets one save with the selection, the first name and a null email, then goes home; the only navigation is home, and it happens only when no request threw |
| SettingsPage.TrimStart | src/client/src/pages/SettingsPage.tsx:91 | leading trim yields a suffix that does not start with whitespace, all dropped characters being whitespace |
| SettingsPage.TrimEnd | src/client/src/pages/SettingsPage.tsx:91 | trailing trim yields a prefix that does not end with whitespace, all dropped characters being whitespace |
| SettingsPage.Trim | src/client/src/pages/SettingsPage.tsx:91 | the trimmed message is no longer than the message and has no whitespace at either end; properties in `TrimStart`, `TrimEnd`, `TrimEmptyIffBlank` |
| SettingsPage.TrimEmptyIffBlank | src/client/src/pages/SettingsPage.tsx:91 | a message trims to the empty string iff every character is ECMAScript whitespace |
| SettingsPage.FormFrom | src/client/src/pages/SettingsPage.tsx:46-50 | the form copies the user's categories, name and email, substituting the empty list or the empty string for a missing field |
| SettingsPage.Page.constructor | src/client/src/pages/SettingsPage.tsx:23-33 | the page starts loading with no user, not saving, the dialog closed, an empty message and an empty form |
| SettingsPage.Page.FetchUserData | src/client/src/pages/SettingsPage.tsx:37-60 | `loading` is cleared always; the user and the form are set only when the reply says `exists` and carries a user, the form then being filled from it; otherwise both keep their values |
| SettingsPage.Page.CategoryCounter | src/client/src/pages/SettingsPage.tsx:152 | definition: the number of categories in the form; its change is stated in `HandleCategoryToggle` |
| SettingsPage.Page.HandleCategoryToggle | src/client/src/pages/SettingsPage.tsx:62-70 | only the form's categories change, to their toggle; name and email are unchanged; the header counter grows by one or drops by the removed occurrences |
| SettingsPage.Page.EditFullName | src/client/src/pages/SettingsPage.tsx:203-208 | only the form's full name changes, to the typed value |
| SettingsPage.Page.EditEmail | src/client/src/pages/SettingsPage.tsx:217-220 | only the form's email changes, to the typed value |
| SettingsPage.Page.HandleSave | src/client/src/pages/SettingsPage.tsx:72-88 | without a user nothing is sent and nothing changes; otherwise the whole form is sent for the bridge user's id, the page goes home only when the reply parses, and `saving` ends false |
| SettingsPage.Page.OpenSupportModal | src/client/src/pages/SettingsPage.tsx:230 | the support dialog is shown |
| SettingsPage.Page.CloseSupportModal | src/client/src/pages/SettingsPage.tsx:270 | the support dialog is hidden |
| SettingsPage.Page.EditSupportMessage | src/client/src/pages/SettingsPage.tsx:264 | the message becomes the typed value |
| SettingsPage.Page.HandleSupportSubmit | src/client/src/pages/SettingsPage.tsx:90-112 | a blank message sends nothing; otherwise the untrimmed message is sent with the user's name and email; an ok reply closes the dialog and clears the message, any other outcome keeps both |
| HomePage.CategoryCount | src/client/src/pages/HomePage.tsx:81 | the counter is the length of the user's categories, or 0 when there is no user or no categories |
| HomePage.EntriesOf | src/client/src/pages/HomePage.tsx:85-106 | one entry per category, in list order, with the category's label and a link to its news page |
| HomePage.CategoriesSection | src/client/src/pages/HomePage.tsx:84-117 | the onboarding prompt is shown iff the count is 0; otherwise there are exactly count entries, the k-th showing the k-th category's label and linking to its page |
| HomePage.CategoryTarget | src/client/src/pages/HomePage.tsx:39-41 | definition: the category's news location, or the catch-all when the category is not one path segment; properties in `ClickOpensCategory` |
| HomePage.ClickOpensCategory | src/client/src/pages/HomePage.tsx:39-41 | clicking the k-th entry renders the news page of the k-th category when it is one path segment, and otherwise redirects to `/`; for each of the four types it renders that category's news page |
| HomePage.PromptBouncesAsWritten | src/client/src/pages/HomePage.tsx:109-114 | as written: on a rendered home page showing the prompt, the button's `/onboarding` redirects to `/home` and lands on the home page again |
| HomePage.PromptReachable | src/client/src/pages/HomePage.tsx:84-117 | deselecting the only category leaves an empty selection, and an existing user with none sees the prompt on a rendered home page |
| HomePage.PromptOpensSettings | src/client/src/pages/HomePage.tsx:67 | with the intended target, the prompt's button opens the settings page, where categories are chosen, and not the home page |
| CategoryNewsPage.Truncate | src/client/src/pages/CategoryNewsPage.tsx:73-76 | text of at most `maxLength` characters is unchanged; longer text is its first `maxLength` characters plus `...`, of length `maxLength + 3`; the result starts with the first min(length, `maxLength`) characters; the default limit is 120 |
| CategoryNewsPage.TruncateIdempotent | src/client/src/pages/CategoryNewsPage.tsx:73-76 | truncating twice equals truncating once |
| CategoryNewsPage.CardsOf | src/client/src/pages/CategoryNewsPage.tsx:114-125 | one card per news item, in order, carrying the item's id and its truncated text |
| CategoryNewsPage.NatDigits | src/client/src/pages/CategoryNewsPage.tsx:61 | a natural number's decimal form is a non-empty string of digits |
| CategoryNewsPage.DigitChar | src/client/src/pages/CategoryNewsPage.tsx:61 | a digit below 10 is written as the character with that value above `0` |
| CategoryNewsPage.Decimal | src/client/src/pages/CategoryNewsPage.tsx:61 | an id's decimal form is one path segment, non-empty and without `/` |
| CategoryNewsPage.NatDigitsRoundTrip | src/client/src/pages/CategoryNewsPage.tsx:61 | reading a natural number's digits back gives the number |
| CategoryNewsPage.DecimalRoundTrip | src/client/src/pages/CategoryNewsPage.tsx:61 | reading an id's decimal form back gives the id, so distinct ids give distinct detail paths |
| CategoryNewsPage.Page.NewsClick | src/client/src/pages/CategoryNewsPage.tsx:60-62 | a card click navigates to a `/news/` location whose id reads back as the item's id, with the item and the page's category as router state |
| CategoryNewsPage.CardOpensNews | src/client/src/pages/CategoryNewsPage.tsx:60-62 | clicking the k-th card renders the detail page of that card's item, for either registration state, and passes the full item and the category |
| CategoryNewsPage.Present | src/client/src/pages/CategoryNewsPage.tsx:40 | definition: the route parameter is present and non-empty; used by the contracts of `Page.FetchNews` and `Open` |
| CategoryNewsPage.Page.constructor | src/client/src/pages/CategoryNewsPage.tsx:22-25 | the page starts loading with no news, for the route's category |
| CategoryNewsPage.Page.FetchNews | src/client/src/pages/CategoryNewsPage.tsx:27-43 | news is requested only for a present category, and then for that type; without one nothing changes and `loading` stays; with one `loading` is cleared and a parsed body is kept whatever the status |
| CategoryNewsPage.Page.HeaderCount | src/client/src/pages/CategoryNewsPage.tsx:108 | the header count is the body's `count`, or 0 when the body or the count is missing |
| CategoryNewsPage.Page.HeaderLabel | src/client/src/pages/CategoryNewsPage.tsx:45-54 | the header shows the category's label, or the empty string without a category |
| CategoryNewsPage.Page.List | src/client/src/pages/CategoryNewsPage.tsx:113-142 | cards are shown iff the body has a non-empty item list, one per item; otherwise "not found" |
| CategoryNewsPage.Open | src/client/src/pages/CategoryNewsPage.tsx:21-43 | opening the page requests news iff the category is present; without one the loading screen stays; with one the header count is the reply's count, or 0 |
| UserApi.FindUser | src/backend/app/api_user.py:29 | the lookup finds the first row with the Telegram id, and finds none iff no row has it |
| UserApi.InfoOf | src/backend/app/api_user.py:27-41 | an unknown id yields "does not exist"; a stored id yields the first stored row with that id |
| UserApi.Overwritten | src/backend/app/api_user.py:48-53 | save overwrites categories, name and email with the payload's, even with null, and keeps id and creation time |
| UserApi.SavedUsers | src/backend/app/api_user.py:43-65 | an unknown id gets exactly one new row with the payload's fields; a known id gets its first row overwritten and no new row; no other row changes |
| UserApi.SaveReply | src/backend/app/api_user.py:67-73 | the response's count is the payload's category count and it echoes the saved fields |
| UserApi.Patched | src/backend/app/api_user.py:100-108 | a given field replaces the stored value; a null field leaves it unchanged; id and creation time are kept |
| UserApi.UpdatedUsers | src/backend/app/api_user.py:93-112 | an unknown id leaves the table unchanged; otherwise only the first row with that id is patched; no other row changes |
| UserApi.UpdateReply | src/backend/app/api_user.py:96-126 | the reply fails with "User not found" iff the id is unknown; otherwise it flags exactly the given fields and reports the patched row's fields |
| UserApi.EmptyUpdateIsNoOp | src/backend/app/api_user.py:100-120 | an update with no field succeeds, flags nothing, and changes nothing |
| UserApi.SaveThenInfo | src/backend/app/api_user.py:43-73 | for any table, info after a save reports the saved categories, name and email |
| UserApi.SaveKeepsUnique | src/backend/app/api_user.py:45-62 | save never creates a second row for a Telegram id |
| UserApi.UpdateThenInfo | src/backend/app/api_user.py:93-126 | for any table, info after an update reports the patched row, and still "does not exist" for an unknown id |
| UserApi.UpdateKeepsUnique | src/backend/app/api_user.py:96-112 | update keeps every row's Telegram id, so unique ids stay unique |
| UserApi.MaxRequestId | src/backend/app/api_user.py:78-85 | the highest stored request id: an upper bound of every id that is itself the id of a stored request; 0 with none |
| UserApi.Store.GetUserInfo | src/backend/app/api_user.py:27-41 | the handler answers the info of the current table |
| UserApi.Store.SaveUser | src/backend/app/api_user.py:43-73 | the table becomes its saved form, the reply is the save reply, and unique Telegram ids stay unique |
| UserApi.Store.UpdateUser | src/backend/app/api_user.py:93-126 | the table becomes its updated form, the reply is the update reply of the old table, and unique Telegram ids stay unique |
| UserApi.Store.CreateSupportRequest | src/backend/app/api_user.py:75-91 | exactly one request with the given name, email and message is appended, its id above every stored id, and that id is returned with the acknowledgement text |
| NewsStore.NewsTable.constructor | src/backend/app/models.py:10-22 | an empty news table whose first id is 1 satisfies the table invariant |
| ActualizeApi.AddPost | src/backend/app/api_actualize.py:24-39 | definition of one post's ingestion; properties in `AddPostExtends` |
| ActualizeApi.AddPosts | src/backend/app/api_actualize.py:23-39 | definition of one channel's ingestion, proved equal to the loop of `StorePosts`; properties in `AddPostsExtends` |
| ActualizeApi.AddChannels | src/backend/app/api_actualize.py:20-41 | definition of the whole run, proved equal to the loop of `ActualizeNews`; properties in `AddChannelsExtends` |
| ActualizeApi.AddPostExtends | src/backend/app/api_actualize.py:23-39 | one post: old rows kept, the table stays well formed, no stored link repeated, the post's link stored afterwards, and any new row is that post under the category |
| ActualizeApi.AddPostsExtends | src/backend/app/api_actualize.py:23-41 | one channel's posts: old rows kept, no link stored twice, each new row copies a post under the channel's category, and every post's link is stored afterwards |
| ActualizeApi.AddChannelsExtends | src/backend/app/api_actualize.py:16-43 | a whole run keeps every old row, keeps the table well formed, adds no stored link again, adds only fetched posts under their map key, and, when no fetch raised, leaves every fetched link stored |
| ActualizeApi.StorePosts | src/backend/app/api_actualize.py:23-41 | the inner loop turns the table into its one-channel ingestion and counts exactly the inserted rows |
| ActualizeApi.ActualizeNews | src/backend/app/api_actualize.py:16-43 | the handler turns the table into the run over the channel map in map order; it answers the number of inserted rows, or an error when a fetch raised |
| ActualizeApi.RunKeepsOldRows | src/backend/app/api_actualize.py:16-43 | a run over the channel map keeps every existing row unchanged as a prefix and the table well formed |
| ActualizeApi.ChannelMapIsAFunction | src/backend/app/api_actualize.py:9-14 | the map's type names are distinct and each names a different channel |
| NewsApi.Newest | src/backend/app/api_news.py:10-11 | the query returns at most the limit, each a stored row of the requested type |
| NewsApi.NewestDescending | src/backend/app/api_news.py:10 | the returned ids strictly decrease |
| NewsApi.NewestIsHighest | src/backend/app/api_news.py:10 | a stored row of the type is left out only when the full limit was returned, all with higher ids |
| NewsApi.View | src/backend/app/api_news.py:17-23 | definition: one response item from one row; properties in `Views` |
| NewsApi.Views | src/backend/app/api_news.py:16-25 | one view per row, in order, carrying its id, text, link, date and creation time |
| NewsApi.GetNews | src/backend/app/api_news.py:8-26 | the channel echoes the type; the count is the number of items, at most 50; the items are the newest rows of the type; a type with no news gives count 0 and no items; the item ids strictly decrease |
| Onboarding.OnboardAsWritten | src/client/src/pages/StartPage.tsx:27-62 | as written: navigation happens exactly as `OnSubmit` says, and a user who was new at load always lands back on onboarding |
| Onboarding.OnboardCorrected | src/client/src/pages/StartPage.tsx:27-62 | with a re-check before the navigation: a re-check that reports the user lands on the home page, and home is reached only when the load or the re-check reported the user |
| Onboarding.NewUserAtLoad | src/client/src/config/AppRouter.tsx:61-96 | a concrete user, id 42, whom the backend does not know at load, gets the onboarding decision |
| ItemsApi.MaxId | src/backend/app/api.py:19-25 | the highest stored item id: an upper bound of every id that is itself a stored id; 0 for an empty table |
| ItemsApi.IndexOf | src/backend/app/api.py:30 | the lookup by primary key finds the item with that id, and finds none iff it is not stored |
| ItemsApi.ItemTable.ListItems | src/backend/app/api.py:12-16 | list returns every stored item |
| ItemsApi.ItemTable.CreateItem | src/backend/app/api.py:19-25 | create appends exactly one item, with a fresh id one above the highest, and returns it |
| ItemsApi.ItemTable.GetItem | src/backend/app/api.py:28-33 | get returns the stored item with that id, and 404 iff it is not stored |
| ItemsApi.ItemTable.DeleteItem | src/backend/app/api.py:36-43 | a missing id gives 404 and no change; otherwise exactly the item with that id is removed and the rest keep their order |

## Findings

| source | as written | input that shows it | evidently intended | confidence | as-written member | corrected member |
|---|---|---|---|---|---|---|
| src/client/src/pages/StartPage.tsx:57 | `userExists` is decided once per load (AppRouter.tsx:72-74); after saving a new user the onboarding page navigates to `/home`, and the `/home` guard (AppRouter.tsx:127) redirects back to `/onboarding` | user 42 unknown at load (`Onboarding.NewUserAtLoad`), selection `["sport"]`, info body `{exists: false}`, save resolves: the landing is the onboarding page | re-check existence after registration, then follow the navigation to the home page | not executed; medium | Onboarding.OnboardAsWritten | Onboarding.OnboardCorrected |
| src/client/src/pages/HomePage.tsx:111 | the prompt shown for an empty category list navigates to `/onboarding`; the home page renders only for an existing user (AppRouter.tsx:127), and the `/onboarding` guard (AppRouter.tsx:120) sends that user back to `/home` | an existing user saved with an empty category list (`HomePage.PromptReachable`) presses the prompt's button: the landing is the home page again | send the user to a page where categories can be chosen, such as `/settings` (HomePage.tsx:67) | not executed; medium | HomePage.PromptBouncesAsWritten | HomePage.PromptOpensSettings |

## Left out

- CategoryNewsPage.Truncate: lengths and cuts count Dafny characters; JavaScript counts UTF-16 code units, which differ on characters outside the Basic Multilingual Plane.
- SettingsPage.Page.HandleSave: the transient `saving = true` while the request is pending is not observable in a sequential model; only its final value is stated.
- NewsApi.GetNews: requires the table's ids to ascend along its rows, the invariant `NewsStore.NewsTable.Valid` keeps (the autoincrement id is never reused).
- ActualizeApi.ActualizeNews: one creation time `now` is used for every row of a run, where the database stamps each row separately. Deduplication assumes the session autoflushes, so that a link repeated within one fetched batch is caught. A raised fetch is an error response, with the channels before it already committed.
- The stored user record: the source stores categories as JSON text behind two helpers of the user class. That class, and the support-request class, are not part of this model. Categories are a plain list, with no JSON round trip asserted.
- The item schemas: the request and response schemas of the items router are not part of this model. The body is assumed to carry a title and an optional description. SQLite's rowid rule (one above the highest, so the id of a deleted last item can be reused) is modelled for the new id.
- Library parsing (`URLSearchParams`, `decodeURIComponent`, `JSON.parse`) is abstracted into the three-way `Session.Source`: missing, malformed (the parse throws), or parsed with an optional id.
- The fetch wrappers are replies passed in as parameters (`UserClient.Reply`). Network I/O, asynchronous scheduling, React rendering and unmount cancellation are not modelled: every effect is one sequential step.
- The news page's detail view, the loading view and the application shell render only and are not part of this model. So are the Telegram bot, the channel HTML parser (its output is the `fetch` parameter of `ActualizeNews`), and the backend's application and database wiring.
- `formatDate`, the `localStorage` write, haptic feedback, `alert`, `tg.ready` and `tg.expand` are side effects with no bearing on state and are left out. So are console logging and the back buttons.
- The home page's own loading flag and fetch effect: its profile gate is `UserClient.LoadedProfile`, shared with the settings page.
- Route matching is a fixed `Session.Location` datatype; react-router's path parsing is not modelled. A parameter value is matched when it is one non-empty segment without `/`; a trailing `/`, a `?` or `#` inside a value, and percent-escapes are not modelled.
- CategoryNewsPage.Page.NewsClick: the router state is carried as the navigation's value; the detail page that reads it is not part of this model.
