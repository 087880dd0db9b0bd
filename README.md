# devlinks link editor, modelled in Dafny

devlinks is a "link-in-bio" web application. A signed-in user builds a list of links to their GitHub, LinkedIn and YouTube profiles, sees them in a phone-shaped preview and publishes a preview page. This project models the parts of the application that make decisions, rather than only render or call the hosted backend:

- **URL validator** (`UrlValidator`, built on `Patterns`). This is `isValidUrl`. It holds one regular expression per platform: GitHub, LinkedIn, Twitter and YouTube. Each is anchored at the start and ends in `.+`. `Patterns` gives these expressions the meaning JavaScript's `RegExp.prototype.test` gives them: some prefix of the input must be matched, and `.` matches anything but a line terminator. Each platform's pattern is then proved equal to a plain prefix condition.
- **Link editor** (`CustomizeLinks`). This is the state of the "Customize your links" page:
  - the list of link records;
  - the URL drafts, kept apart from the records and keyed by position;
  - the dropdown flags;
  - the empty-state placeholder flag;
  - the flag that turns on validation feedback.

  `LinkEditor` is a class whose methods are the page's handlers. Calls to the document store are abstract:
  - a delete is given its outcome;
  - a save returns the ordered list of create/update writes it would issue (`PlanSave`), or the reason it refused;
  - a fetch is given the records the store returned.
- **Phone preview** (`MainLayout`). It filters the entries down to those whose platform has an icon, lays them into five fixed boxes and colours each box by its platform.
- **Routes** (`Routes`). These are the shell's rule for hiding the navigation bar, the highlighted tab, and the navigation guard that sends a signed-out visitor to the sign-in page.

The model follows the code as written:
- `removeLink` returns without doing anything for a row that has no identifier (`src/components/page/customize/index.tsx:158`). A row that was added but never saved therefore cannot be removed.
- `saveLinks` reads only the drafts (`src/components/page/customize/index.tsx:209`, `221`, `230`). It has no fallback to the record's stored URL. A row whose draft was never typed, or was cleared by a platform change, blocks the save as empty.
- Removal deletes the removed row's draft key and does not move later keys down (`src/components/page/customize/index.tsx:164-168`). See "## Findings".

## Model

| member | source | states |
|---|---|---|
| `UrlValidator.IsValidUrl` | src/components/page/customize/index.tsx:139-147 | computes whether a URL suits a platform. It looks up the platform's pattern in the `regexes` record (`GitHub`, `LinkedIn`, `Twitter`, `YouTube`, lines 140-145, the constant `Regexes`) and tests the URL against it. A name with no pattern gives false. The lemmas below state what each pattern accepts |
| `Patterns.Matches` | src/components/page/customize/index.tsx:141-144 | the meaning of the pattern constructs these expressions use. A literal matches itself, `(…)?` matches nothing or its body, and an alternation matches either of its two sides. A sequence splits the input between its parts. `.+` matches one or more characters, none of them a line terminator |
| `Patterns.Test` | src/components/page/customize/index.tsx:146 | `test` of a `^`-anchored expression: true when some prefix of the input is matched |
| `UrlValidator.GitHubUrls` | src/components/page/customize/index.tsx:141 | GitHub accepts exactly the URLs that begin with `https://github.com/` and have, right after it, a character that is not a line terminator |
| `UrlValidator.LinkedInUrls` | src/components/page/customize/index.tsx:142 | LinkedIn accepts exactly `https://linkedin.com/in/` or `https://www.linkedin.com/in/` followed by a non-line-terminator character |
| `UrlValidator.TwitterUrls` | src/components/page/customize/index.tsx:143 | Twitter accepts exactly `https://twitter.com/` followed by a non-line-terminator character |
| `UrlValidator.YouTubeUrls` | src/components/page/customize/index.tsx:144 | YouTube accepts exactly the four prefixes `https://[www.]youtube.com/channel/` and `https://[www.]youtube.com/user/`, each followed by a non-line-terminator character |
| `UrlValidator.UnlistedPlatformRejected` | src/components/page/customize/index.tsx:140-146 | a platform with no pattern is never valid; this covers the unset platform `""` and `"Facebook"`, which has an icon but no pattern |
| `UrlValidator.AcceptedUrlShape` | src/components/page/customize/index.tsx:139-147 | an accepted URL has a platform that has a pattern, starts with `https://` and is longer than the scheme |
| `UrlValidator.EmptyUrlRejected` | src/components/page/customize/index.tsx:139-147 | the empty URL is rejected for every platform |
| `UrlValidator.GitHubExamples` | src/components/page/customize/index.tsx:141 | `https://github.com/alice` is accepted; `https://github.com/` with nothing after it is not |
| `UrlValidator.GitHubNearMisses` | src/components/page/customize/index.tsx:141 | a line break right after the prefix, or an `http://` scheme, is rejected |
| `UrlValidator.LinkedInExamples` | src/components/page/customize/index.tsx:142 | a `www.` LinkedIn profile URL is accepted; `not-a-url` is rejected |
| `UrlValidator.YouTubeExamples` | src/components/page/customize/index.tsx:144 | a `user/` YouTube URL is accepted |
| `UrlValidator.YouTubeRejectsWatchPage` | src/components/page/customize/index.tsx:144 | a YouTube URL whose path is neither `channel/` nor `user/` is rejected |
| `Patterns.TestLitAnyPlus` | src/components/page/customize/index.tsx:141-144 | `^literal.+` tests true exactly when the input starts with the literal and has a further non-line-terminator character |
| `CustomizeLinks.HasId` | src/components/page/customize/index.tsx:158 | the truthiness of `link.id`: an identifier is present and non-empty. It decides whether `removeLink` issues a delete (line 158) and whether `saveLinks` updates or creates (line 232) |
| `CustomizeLinks.Draft` | src/components/page/customize/index.tsx:203 | the draft lookup with `''` as fallback: the draft stored at a position, or `""` when the key is missing (a stored `""` reads the same). Lines 221, 230 and 279 read the draft the same way |
| `CustomizeLinks.SomeDraftEmpty` | src/components/page/customize/index.tsx:209 | some row's draft is missing or the empty string, which are the falsy values `!urls[index]` catches |
| `CustomizeLinks.AllUrlsValid` | src/components/page/customize/index.tsx:202-204 | every row's draft, or `""` when it has none, is accepted by the validator for that row's platform |
| `CustomizeLinks.OpFor` | src/components/page/customize/index.tsx:229-241 | the write for one row: the row's record with the draft as URL. It is an update of the row's document when the row has a non-empty identifier, and a create carrying the user's id otherwise |
| `CustomizeLinks.PlanSave` | src/components/page/customize/index.tsx:206-242 | three checks run in order: empty draft, then no user, then a draft the validator rejects for its row's platform, which is the negation of `allUrlsValid` (lines 202-204). Each refusal happens exactly when its check fails and every earlier one passed. Otherwise the result is one write per row, in row order. A row with an identifier gets an update of that document; any other row gets a create carrying the user's id. Each payload is the row's record with its non-empty draft as URL, and that URL is valid for the payload's platform |
| `CustomizeLinks.SavedUrlsAreHttps` | src/components/page/customize/index.tsx:219-241 | every URL a save writes starts with `https://`, and its platform is one with a pattern |
| `CustomizeLinks.SaveAfterFetchRewritesRecords` | src/components/page/customize/index.tsx:78-87 | suppose the store returns stored records whose URLs suit their platforms. Saving straight after that fetch issues one update per record, in order, each writing the record back unchanged, and no create |
| `CustomizeLinks.DropDraft` | src/components/page/customize/index.tsx:164-168 | the drafts without key `index`; every other key keeps its draft |
| `CustomizeLinks.FetchedDrafts` | src/components/page/customize/index.tsx:79-85 | the rebuilt drafts have exactly the keys `0..n-1`, and key `i` holds fetched record `i`'s URL |
| `CustomizeLinks.Without` | src/components/page/customize/index.tsx:163 | removing position `index` leaves one element fewer; earlier elements stay in place and later ones move down by one |
| `CustomizeLinks.DefaultUrlsAccepted` | src/components/page/customize/index.tsx:31-37 | each platform offered in the dropdown has an example URL, and the validator accepts it for that platform |
| `CustomizeLinks.PreviewEntries` | src/components/page/customize/index.tsx:277-280 | the preview gets one entry per row with the row's platform. Its URL is the row's draft when that is non-empty. Otherwise it is the platform's example URL from `platformDefaultUrls` (which the validator accepts) if the platform is offered in the dropdown, and `""` if not |
| `CustomizeLinks.AddedRowNotPreviewed` | src/components/page/customize/index.tsx:149-152 | a freshly added row, which has no platform, does not change what the phone preview shows |
| `CustomizeLinks.ChosenPlatformsAllPreviewed` | src/components/page/customize/index.tsx:277-280 | when every row has a platform from the dropdown, the preview filter keeps every row, in order |
| `CustomizeLinks.RemovalStrandsLaterDrafts` | src/components/page/customize/index.tsx:163-168 | take two stored rows whose drafts are at keys 0 and 1. With the draft removal as written, removing row 0 turns a save that succeeded into a refusal for an empty link |
| `CustomizeLinks.ShiftDraftsAligned` | src/components/page/customize/index.tsx:164-168 | with later draft keys moved down by one, position `j` holds the draft of the row that moved to `j` |
| `CustomizeLinks.RemovalWithShiftKeepsSave` | src/components/page/customize/index.tsx:163-168 | with drafts moved down, a list that could be saved can still be saved after removing any row, and the save issues the same writes minus the removed row's |
| `CustomizeLinks.LinkEditor.Valid` | src/components/page/customize/index.tsx:149-169 | the class invariant, which every method requires and re-establishes: the empty-state placeholder is shown only when the list is empty. It starts true (lines 55, 60). `addLink` hides the placeholder as it adds a row (line 151). `fetchLinks` shows it exactly for an empty result (line 88). `removeLink` shows it only when the last row goes (line 169) |
| `CustomizeLinks.LinkEditor.constructor` | src/components/page/customize/index.tsx:55-62 | the list, drafts and dropdown flags start empty; the placeholder is shown; validation feedback is off; the class invariant `Valid` holds |
| `CustomizeLinks.LinkEditor.AddLink` | src/components/page/customize/index.tsx:149-152 | appends a row with empty platform and URL, no identifier and the given creation time, and hides the placeholder. Drafts, dropdowns and earlier rows are unchanged |
| `CustomizeLinks.LinkEditor.RemoveLink` | src/components/page/customize/index.tsx:154-174 | does nothing when no user is signed in, or when the row has no identifier. Otherwise a delete of the row's document is issued. If it fails, nothing changes. If it succeeds, the row is removed and its draft key dropped, with no other key moved. After a successful delete the placeholder is shown exactly when the list had one row, and is otherwise hidden. `Valid` is kept |
| `CustomizeLinks.LinkEditor.HandlePlatformChange` | src/components/page/customize/index.tsx:176-185 | sets the row's platform and drops that row's draft; nothing else changes |
| `CustomizeLinks.LinkEditor.HandleUrlChange` | src/components/page/customize/index.tsx:187-190 | sets the draft at the position to the typed value; every other draft and the list are unchanged |
| `CustomizeLinks.LinkEditor.ToggleDropdown` | src/components/page/customize/index.tsx:192-194 | flips the position's dropdown flag; a flag never set before becomes open |
| `CustomizeLinks.LinkEditor.SelectPlatform` | src/components/page/customize/index.tsx:196-200 | the platform change, followed by closing that row's dropdown; other rows, drafts and dropdowns are unchanged |
| `CustomizeLinks.LinkEditor.SaveLinks` | src/components/page/customize/index.tsx:206-250 | turns validation feedback on and returns `PlanSave` of the current rows and drafts; the list, drafts, dropdowns and placeholder are unchanged |
| `CustomizeLinks.LinkEditor.FetchLinks` | src/components/page/customize/index.tsx:65-92 | when a user is signed in and the store answers, the list becomes the fetched records and every draft equals its record's URL. The placeholder is shown exactly when nothing came back. With no user or a failed fetch, nothing changes |
| `MainLayout.ValidLinks` | src/components/page/mainlayout/index.tsx:24-26 | the filtered list is no longer than the input, and holds only input entries that have a platform with an icon |
| `MainLayout.ValidLinksMembership` | src/components/page/mainlayout/index.tsx:16-26 | an entry survives the filter exactly when it is in the input and its platform is non-empty and has an icon (GitHub, LinkedIn, YouTube) |
| `MainLayout.ValidLinksSubsequence` | src/components/page/mainlayout/index.tsx:24-26 | the survivors keep their original order: the result is a subsequence of the input |
| `MainLayout.ValidLinksAppend` | src/components/page/mainlayout/index.tsx:24-26 | filtering a concatenation is the concatenation of the filtered parts |
| `MainLayout.ValidLinksKeepsAll` | src/components/page/mainlayout/index.tsx:24-26 | a list whose entries all have an icon passes unchanged |
| `MainLayout.ValidLinksIdempotent` | src/components/page/mainlayout/index.tsx:24-26 | filtering twice is filtering once |
| `MainLayout.HasPreviewIcon` | src/components/page/mainlayout/index.tsx:25 | the filter's condition: the entry's platform is non-empty and is a key of the icon table (`GitHub`, `LinkedIn`, `YouTube`) |
| `MainLayout.BoxColour` | src/components/page/mainlayout/index.tsx:65-75 | the nested conditional gives each filtered entry its platform's colour from the table: GitHub `bg-black`, LinkedIn `bg-[#2D68FF]`, YouTube `bg-red`. Past the last entry it gives `bg-dark` |
| `MainLayout.BoxAt` | src/components/page/mainlayout/index.tsx:62-101 | one box of the preview: its colour by `BoxColour`, and a link to the `index`-th filtered entry's URL with the platform as its text, or no link past the last entry |
| `MainLayout.Boxes` | src/components/page/mainlayout/index.tsx:29-101 | there are always exactly five boxes. Box `i` shows a link exactly when `i` is below the number of filtered entries, so entries past the fifth are never shown. The link's target is the entry's URL and its text is the platform. A box is dark exactly when it is empty |
| `Routes.HideNavbar` | src/app/Client.tsx:14 | computes whether the bar is hidden: the path is exactly `/login` or `/register`, or starts with `/preview` |
| `Routes.HiddenPathsExactly` | src/app/Client.tsx:14 | for every path, the bar is hidden exactly on `/login`, on `/register`, and on `/preview` followed by any text at all |
| `Routes.NavbarHiddenPages` | src/app/Client.tsx:14 | the navigation bar is hidden on `/login`, on `/register`, on `/preview` and on every `/preview/<id>` |
| `Routes.NavbarShownPages` | src/app/Client.tsx:14-18 | the bar is shown on `/` and `/profile`, on `/prev` (only part of the preview prefix) and on `/login/` (the sign-in page is matched exactly, not as a prefix) |
| `Routes.IsGuarded` | src/components/navbar/index.tsx:47 | the pages that need a signed-in user: exactly `/profile` and `/preview` |
| `Routes.NavigationTarget` | src/components/navbar/index.tsx:46-52 | with a user signed in, the requested path is followed. A signed-out visitor never reaches `/profile` or `/preview`. The target differs from the request only for those two paths when signed out, and is then `/login` |
| `Routes.IsLinkActive` | src/components/navbar/index.tsx:24 | the Links tab is highlighted exactly on `/` |
| `Routes.IsProfileActive` | src/components/navbar/index.tsx:25 | the Profile tab is highlighted exactly on `/profile` |
| `Routes.ActiveTabsConsistent` | src/components/navbar/index.tsx:24-25 | the Links tab (`/`) and the Profile tab (`/profile`) are never both highlighted, and a highlighted tab is on a page that shows the bar |

## Findings

| source | as written | input that shows it | evidently intended | confidence | as-written member | corrected member |
|---|---|---|---|---|---|---|
| src/components/page/customize/index.tsx:163-168 | a successful removal filters the row out of the list and deletes only draft key `index`, leaving the drafts of later rows under their old keys | two stored GitHub rows with drafts `https://github.com/a` at key 0 and `https://github.com/b` at key 1; remove row 0. The remaining row is now at position 0 with no draft, and a save is refused with "Links can't be empty" | later drafts move down one key together with their rows, so each row keeps its own draft | likely; not executed | `CustomizeLinks.RemovalStrandsLaterDrafts` | `CustomizeLinks.RemovalWithShiftKeepsSave` |

`LinkEditor.RemoveLink` keeps the behaviour as written, because that is what the page does. `ShiftDrafts` and the lemmas about it give the corrected removal of drafts.

## Left out

- The hosted backend is not called. A delete is a success/failure parameter. A save returns its ordered writes instead of running them. A fetch receives the store's answer, or `None` for a failed query. The query by user id is not modelled, and neither is the record shape `{id: doc.id, ...doc.data()}`: a stored `id` field overriding the document id is not captured.
- `Promise.all` in `saveLinks` is not modelled. Nor is completion order, partial failure of some writes, or the refetch after a successful save, which the caller makes as a separate `FetchLinks` call.
- Concurrency between handlers is not modelled: stale closures, batched state updates, or a second save started before the first completes. Each handler runs to completion on the latest state.
- `handlePlatformChange` writes the platform into the record object that the old and new lists share. The model updates a value, so this aliasing is not captured.
- Toast notifications, console logging and the wall-clock timers are left out: the redirect to sign-in, the 15-second redirect, and the 30-minute automatic sign-out in the editor and the navigation bar. They have no bearing on the modelled state.
- Rendering is left out, apart from the preview boxes' colours and contents. This includes the red border and "Please check the URL" message that `validationPerformed` switches on, and the placeholder's display condition.
- Lookups by platform name are modelled as lookups of the tables' own keys. Inherited object property names are not modelled. In the code, `isValidUrl("constructor", …)` throws a TypeError, and the preview filter treats such a name as having an icon. The model rejects such names and filters them out.
- `CustomizeLinks.LinkEditor.RemoveLink`, `CustomizeLinks.LinkEditor.HandlePlatformChange` and `CustomizeLinks.LinkEditor.SelectPlatform` require an index inside the list wherever the code reads `links[index]`. The code would throw a TypeError for any other index; the page only passes indices of rendered rows.
- Strings are sequences of Unicode characters, whereas JavaScript uses UTF-16 code units. For these patterns that makes no difference: `.+` only needs one character that is not a line terminator after the prefix. Creation times are integers rather than `Date` objects.
- The user identity is a parameter (`Option<UserId>`, or a flag for the navigation bar), not the authentication hook.
- The schema validators of the sign-in, registration and profile forms are not part of this model. The same goes for the profile page's image upload, the preview pages, which only fetch and render, and the backend configuration.
