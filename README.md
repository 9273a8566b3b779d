# Portfolio site behaviour, modelled in Dafny

This project models the parts of a personal portfolio site (a Next.js application) that hold real logic. The rest of the site is markup. Five pieces are modelled:

- **Technology classifier.** The project popup's `categorizeTech` is a first-match, case-insensitive substring search over an ordered table of keyword lists, falling back to `"other"`. `getCategoryColor` is its colour lookup with a default.
- **Projects grid.** The projects section filters a static project list by category tab, where `All` keeps everything. The result is laid out as a row of three cards, a second row of three, and a centred seventh card when there are exactly seven.
- **Navigation bar.** The header tracks the active section, which three things change:
  - intersection-observer callbacks, where the last intersecting entry wins;
  - the URL's `section` query value, defaulting to `home`;
  - link clicks, which also close the mobile menu.

  Exactly the link whose id equals the active section is highlighted.
- **Detail popups and scroll lock.** Four popups share one effect:
  - Opening a popup stores `window.scrollY` in `body.dataset.scrollY` and pins the body with `position: fixed`.
  - Closing it schedules, for the next animation frame, a release that clears the pin and scrolls back to `parseInt(dataset.scrollY || '0')`.

  A click on the backdrop or on the close button closes the popup. A click inside the dialog stops propagation.
- **Company initials.** `LogoPlaceholder` falls back to initials: the first character of each space-separated word, upper-cased, at most two.

Module layout. Each module is one file.

- `Wrappers` holds the option type, which stands for `null`/`undefined`.
- `Text` holds the JavaScript string operations that the modelled code uses:
  - ASCII `toLowerCase`/`toUpperCase`;
  - `includes`;
  - `split(' ')`;
  - `slice(0, n)`;
  - JSX truthiness of optional strings.
- `Decimal` holds `toString` and `parseInt` on offsets.
- `ScrollLock` holds:
  - the page body, both as a value `BodyState` and as the mutable `Body`;
  - the effect's run and cleanup;
  - React's rule for re-running an effect.
- `Overlay` models how click events bubble through a popup.
- `ProjectPopup`, `ProjectsSection` and `Navigation` correspond to their source components.
- `Selection.RecordPopup<T>` is the selection state shared by three sections: experience, leadership and certifications. Each of them keeps the selected record in `useState`, and each popup's effect depends on that record.
- `ExperienceSection`, `LeadershipSection` and `CertificationsSection` hold the data records, the lookups and what each popup shows.

Stateful code is modelled as classes with `modifies` frames:
- component state (`NavigationBar`, `ProjectsSection.Section`, `Selection.RecordPopup`);
- the DOM body (`ScrollLock.Body`).

Each method is proved against a pure function of the old state. Loops are modelled as methods with loop invariants: `categorizeTech`'s two nested loops and `handleIntersection`'s `forEach`.

Points where the code's behaviour is easy to misread:
- The code copies any `section` query value into `activeSection` unchecked, so the model allows unknown ids. `Navigation.HeaderActiveLinks` proves that no link is then highlighted.
- The popups never touch `activeSection`. Closing one restores only the scroll offset.
- In the experience, leadership and certification sections the effect is keyed on the selected record. Switching from one open record to another therefore re-pins the body and then runs the previous release, which unpins it while the popup stays open (`ScrollLock.SwitchUnpins`). The backdrop covers the cards, so this path is hard to reach by clicking.
- An empty `section=` value, like a missing one, gives `home`, because the code uses `||`.
- The certificate's credential line is shown only when the id is present and non-empty. The skills block, by contrast, is shown whenever the list is present, even when it is empty, because an empty array is truthy.

`categorizeTech` and `getCategoryColor` are declared in `ProjectPopup.tsx` but never called anywhere in the repository. They are modelled because they are the site's technology classifier, the only non-trivial string logic in the project popup.

## Model

| member | source | states |
|---|---|---|
| Text.Lower | src/Projects/ProjectPopup.tsx:31 | `toLowerCase` keeps the length and lowers each ASCII letter in place |
| Text.Upper | src/Experience/ExperienceSection.tsx:249 | `toUpperCase` keeps the length and raises each ASCII letter in place |
| Text.IncludesIff | src/Projects/ProjectPopup.tsx:31 | `includes(p)` holds exactly when `p` occurs at some position of the text |
| Text.Take | src/Experience/ExperienceSection.tsx:250 | `slice(0, n)` is the prefix of exactly `n` characters when the text is longer, and the whole text otherwise |
| Text.SplitOnSpace | src/Experience/ExperienceSection.tsx:246 | `split(' ')` always yields at least one piece |
| Text.SplitJoinRoundTrip | src/Experience/ExperienceSection.tsx:246 | joining the pieces of `split(' ')` with single spaces gives back the original text, so splitting loses only the separators |
| Text.SplitPiecesHaveNoSpace | src/Experience/ExperienceSection.tsx:246 | no piece of `split(' ')` contains a space |
| Text.ShownIfNonEmpty | src/Leadership/LeadershipSection.tsx:296 | `value && <line>` renders the line exactly when the optional string is present and non-empty, and then renders that string |
| Decimal.NatToString | src/Projects/ProjectPopup.tsx:62 | `scrollY.toString()` is a non-empty run of decimal digits with no leading zero |
| Decimal.LeadingDigits | src/Projects/ProjectPopup.tsx:70 | `parseInt` reads the longest prefix made of digits, stopping at the first non-digit |
| Decimal.ParseInt | src/Projects/ProjectPopup.tsx:70 | `parseInt` gives NaN exactly when the text does not start with a digit |
| Decimal.ParseIntOfNatToString | src/Projects/ProjectPopup.tsx:62-70 | `parseInt(n.toString()) == n` for every offset `n` |
| Decimal.NatToStringInjective | src/Projects/ProjectPopup.tsx:62 | different offsets are stored as different text |
| ScrollLock.RestoreTarget | src/Projects/ProjectPopup.tsx:66-70 | a missing `dataset.scrollY` scrolls back to 0 |
| ScrollLock.RestoreCaptured | src/Projects/ProjectPopup.tsx:62-70 | the cleanup scrolls back to exactly the offset the effect stored |
| ScrollLock.RestoreWithoutCapture | src/Certifications/CertificationsSection.tsx:56-60 | an absent or empty `dataset.scrollY` restores offset 0, because a falsy value reads as `'0'` |
| ScrollLock.PinnedRecordsOffset | src/Projects/ProjectPopup.tsx:57-62 | opening fixes the body and records the offset both in `top` (as `-<n>px`) and in `dataset.scrollY` |
| ScrollLock.PinReleaseRoundTrip | src/Projects/ProjectPopup.tsx:56-74 | opening then closing returns the page to its offset and clears the pin; from an unstyled body, only `dataset.scrollY` differs afterwards |
| ScrollLock.OpenCloseRestoresOffset | src/Experience/ExperienceSection.tsx:99-117 | through React's commit rule, selecting a record and then clearing it restores the offset and leaves the body unstyled |
| ScrollLock.SwitchUnpins | src/Leadership/LeadershipSection.tsx:143-161 | when the selected record changes while open, the re-run stores the current offset and the deferred release then clears the pin, leaving the page unpinned at that offset |
| ScrollLock.Body.constructor | src/Projects/ProjectPopup.tsx:56-74 | a fresh page has no inline style, no stored offset and the given scroll offset |
| ScrollLock.Pinned | src/Projects/ProjectPopup.tsx:57-62 | definition of the effect body; see `PinnedRecordsOffset` and `PinReleaseRoundTrip` |
| ScrollLock.Released | src/Projects/ProjectPopup.tsx:64-71 | definition of the deferred release; see `PinReleaseRoundTrip` and `RestoreCaptured` |
| ScrollLock.AfterCommit | src/Projects/ProjectPopup.tsx:56-74 | definition of React's commit order for the effect; see `OpenCloseRestoresOffset` and `SwitchUnpins` |
| ScrollLock.Body.ScrollTo | src/Projects/ProjectPopup.tsx:58 | the user scrolling changes only `window.scrollY`, which the next pin reads; used by `Selection.ScrollOpenClose` |
| ScrollLock.Body.Pin | src/Projects/ProjectPopup.tsx:57-62 | the effect body moves the body to the pinned state of the old state |
| ScrollLock.Body.Release | src/Projects/ProjectPopup.tsx:64-71 | the release the cleanup schedules for the next frame clears the three style fields and scrolls to the restore target of the stored text |
| ScrollLock.Body.Commit | src/Projects/ProjectPopup.tsx:56-74 | the effect is cleaned up and re-run only when its dependency changed; the new run pins at once and the release scheduled by the previous run (which exists only if that run pinned) follows it |
| Overlay.DispatchThroughWrappers | src/Projects/ProjectPopup.tsx:80-114 | elements without a click handler pass a bubbling click on unchanged |
| Overlay.ClickRouting | src/Leadership/LeadershipSection.tsx:167-204 | backdrop click closes; close-button click closes once, with the dialog stopping the bubble before the backdrop; any other click in the dialog does nothing; an image click only toggles the zoom |
| Overlay.ClosesPopupIff | src/Certifications/CertificationsSection.tsx:70-105 | a click closes the popup exactly when it lands on the backdrop or on the close button |
| ProjectPopup.AnyKeywordIn | src/Projects/ProjectPopup.tsx:31 | `techs.some(...)` holds exactly when some keyword, lowered, occurs in the lowered technology |
| ProjectPopup.FirstMatchingCategory | src/Projects/ProjectPopup.tsx:30-35 | the loop returns the name of the first matching row, and `other` exactly when no row matches |
| ProjectPopup.CategorizeTech | src/Projects/ProjectPopup.tsx:18-36 | the result is the first category in declaration order with a keyword occurring case-insensitively in the technology, and `other` exactly when none does |
| ProjectPopup.NamesAreNotOther | src/Projects/ProjectPopup.tsx:19-28 | no category in the table is called `other`, so `other` only means "no match" |
| ProjectPopup.FirstMatchIsFirstMatchingRow | src/Projects/ProjectPopup.tsx:30-35 | over any table without an `other` row, the first-match rule gives `other` iff no row matches, and otherwise names the first matching row |
| ProjectPopup.Classify | src/Projects/ProjectPopup.tsx:18-36 | definition of the classifier on a lowered name; see `ClassifyIsFirstMatch` and `CategorizeTech` |
| ProjectPopup.ClassifyIsFirstMatch | src/Projects/ProjectPopup.tsx:18-36 | the same first-match rule for the site's table |
| ProjectPopup.NoStartFits | src/Projects/ProjectPopup.tsx:31 | a keyword whose first letter appears at no possible start position does not occur |
| ProjectPopup.CognitoIsCloud | src/Projects/ProjectPopup.tsx:20-22 | `Cognito` is listed under cloud and under auth; it classifies as `cloud` because cloud comes first |
| ProjectPopup.PythonMissesEarlyRow | src/Projects/ProjectPopup.tsx:20-22 | no keyword of the cloud, infra or auth row occurs in `python` |
| ProjectPopup.PythonMissesEarlyRows | src/Projects/ProjectPopup.tsx:20-22 | the three rows before `ml` all miss `python` |
| ProjectPopup.PythonMatchesMlRow | src/Projects/ProjectPopup.tsx:23 | the `ml` row matches `python` |
| ProjectPopup.PythonIsMl | src/Projects/ProjectPopup.tsx:23-26 | `Python` is listed under ml and under backend; it classifies as `ml` because ml comes first |
| ProjectPopup.FirstMatchAt | src/Projects/ProjectPopup.tsx:30-34 | when every row before `n` misses and row `n` matches, the result is row `n`'s name |
| ProjectPopup.ClassifyIgnoresCase | src/Projects/ProjectPopup.tsx:31 | technologies that differ only in ASCII case get the same category |
| ProjectPopup.FirstMatchIsNamedRow | src/Projects/ProjectPopup.tsx:30-35 | the classifier returns either `other` or the name of a row of the table |
| ProjectPopup.GetCategoryColor | src/Projects/ProjectPopup.tsx:38-51 | the colour is one of the nine table values: the mapped one for a known key, the `other` one otherwise |
| ProjectPopup.ColorOfClassified | src/Projects/ProjectPopup.tsx:38-51 | every classified technology has a colour entry, and it gets the fallback colour exactly when its category is `other` |
| ProjectPopup.Render | src/Projects/ProjectPopup.tsx:76-193 | the popup renders nothing when closed; otherwise every overview point and technology in order, the zoom state, and the GitHub button exactly when the link is present and non-empty |
| ProjectsSection.FilterProjects | src/Projects/ProjectsSection.tsx:113-115 | `All` keeps the list as is; another tab keeps exactly the projects whose categories contain it, as a subsequence in original order |
| ProjectsSection.FilterCounts | src/Projects/ProjectsSection.tsx:113-115 | a shown project occurs in the filtered list as often as in the list filtered, and any other project not at all |
| ProjectsSection.SubsequenceLength | src/Projects/ProjectsSection.tsx:113-115 | a filtered list is never longer than the list it filters |
| ProjectsSection.FilterAppend | src/Projects/ProjectsSection.tsx:113-115 | filtering a concatenation filters each part |
| ProjectsSection.FilterNone | src/Projects/ProjectsSection.tsx:113-115 | a tab that shows none of the projects gives the empty list |
| ProjectsSection.FilterAll | src/Projects/ProjectsSection.tsx:113-115 | a tab that shows every project keeps the list unchanged |
| ProjectsSection.ProjectsSplit | src/Projects/ProjectsSection.tsx:10-107 | the project list is its first three entries followed by its last four |
| ProjectsSection.DataTabSkipsHead | src/Projects/ProjectsSection.tsx:10-50 | none of BrevityCloud, QueryEase and EIBP is a Data project |
| ProjectsSection.DataTabKeepsTail | src/Projects/ProjectsSection.tsx:51-107 | StreamFlix, Retail Worker, Brazilian E-Commerce and Stock Price are all Data projects |
| ProjectsSection.DataTabProjects | src/Projects/ProjectsSection.tsx:10-115 | the Data tab shows StreamFlix, Retail Worker, Brazilian E-Commerce and Stock Price, in that order |
| ProjectsSection.FullStackTabProjects | src/Projects/ProjectsSection.tsx:10-115 | the Full Stack tab shows BrevityCloud and EIBP, in that order |
| ProjectsSection.Slice | src/Projects/ProjectsSection.tsx:141 | `slice(start, end)` holds, in order, the elements from `start` up to `end` clamped to the length, and nothing when `start` is at or past either bound |
| ProjectsSection.Layout | src/Projects/ProjectsSection.tsx:141-211 | definition of the three grid parts; see `LayoutShowsEachOnce` |
| ProjectsSection.LayoutShowsEachOnce | src/Projects/ProjectsSection.tsx:141-211 | each row has at most three cards; up to seven projects are each rendered exactly once in order; with more than seven only the first six appear |
| ProjectsSection.EveryTabFitsGrid | src/Projects/ProjectsSection.tsx:113-211 | every tab yields at most seven projects, so the grid shows every filtered project |
| ProjectsSection.ExactlyOneTabHighlighted | src/Projects/ProjectsSection.tsx:123-131 | of the five tabs, exactly the active one is highlighted |
| ProjectsSection.PropsFor | src/Projects/ProjectsSection.tsx:241-248 | the popup is open exactly when a project is selected; then it gets that project's title, image, link, overview and technologies; otherwise `''` for the title and image, no link, and `[]` for the lists |
| ProjectsSection.PopupShowsSelection | src/Projects/ProjectsSection.tsx:241-248 | without a selection the popup renders nothing; with one it shows that project's title, points and technologies, and its link when non-empty |
| ProjectsSection.Section.constructor | src/Projects/ProjectsSection.tsx:110-111 | nothing is selected, the filter is `All`, the image is not zoomed |
| ProjectsSection.Section.SelectTab | src/Projects/ProjectsSection.tsx:126 | a tab click sets the filter to that tab and changes nothing else |
| ProjectsSection.Section.ClickCard | src/Projects/ProjectsSection.tsx:145 | a card click selects the project and pins the body at the current offset when the popup was closed |
| ProjectsSection.Section.Close | src/Projects/ProjectsSection.tsx:243 | closing clears the selection, scrolls back to the captured offset and unpins the body |
| ProjectsSection.Section.ToggleImage | src/Projects/ProjectPopup.tsx:114 | an image click negates `imageExpanded` |
| ProjectsSection.Section.ClickPopup | src/Projects/ProjectPopup.tsx:80-114 | a backdrop or close-button click closes, unpins and restores the offset; an image click only toggles the zoom; other clicks change nothing; the active tab is never touched |
| ProjectsSection.ToggleTwice | src/Projects/ProjectPopup.tsx:114 | two image clicks leave the zoom as it was |
| Navigation.AfterEntries | src/components/Navigation.tsx:34-41 | definition of the `forEach` fold; see `LastIntersectingWins` and `HandleIntersection` |
| Navigation.LastIntersectingWins | src/components/Navigation.tsx:34-41 | after a batch, the active section is the id of the last intersecting entry, or unchanged when none intersects |
| Navigation.NavigationBar.HandleIntersection | src/components/Navigation.tsx:34-41 | the `forEach` loop leaves the id of the last intersecting entry active, and changes nothing when no entry intersects |
| Navigation.SectionFromQuery | src/components/Navigation.tsx:63 | a present, non-empty `section` value becomes the section; a missing or empty one gives `home` |
| Navigation.SectionParam | src/components/Navigation.tsx:8-14 | the `section` value is read from a URL exactly when it starts with `/?section=`, and it is the rest of the URL |
| Navigation.NavLinkIdsDistinct | src/components/Navigation.tsx:6-15 | the eight links name eight different sections |
| Navigation.EveryHrefNamesItsId | src/components/Navigation.tsx:7-14 | home's href is `/`, and every other link's href is `/?section=` followed by its own id |
| Navigation.HrefLeadsToId | src/components/Navigation.tsx:62-65 | reading the section back from a link's href gives that link's id |
| Navigation.ActiveCountOfDistinct | src/components/Navigation.tsx:97 | with distinct ids, at most one link is active, and one is exactly when the section is one of the ids |
| Navigation.HeaderActiveLinks | src/components/Navigation.tsx:96-97 | in the header, one link is active for a known section and none for an unknown one |
| Navigation.DesktopButtons | src/components/Navigation.tsx:96-126 | one button per link in order, highlighted exactly when active; the contact button has the mail icon; every other active button has the pulse dot |
| Navigation.MobileButtons | src/components/Navigation.tsx:147-177 | the mobile menu shows no buttons while closed, and one button per link in order while open |
| Navigation.NavigationBar.constructor | src/components/Navigation.tsx:20-63 | the bar starts with `home` active and the menu closed, and the URL effect's first run on mount then takes the section from the query, so `/` gives `home` and `/?section=<id>` gives that id |
| Navigation.NavigationBar.UrlChanged | src/components/Navigation.tsx:62-65 | the URL effect sets the active section from the `section` query value |
| Navigation.NavigationBar.NavClick | src/components/Navigation.tsx:67-81 | a nav click pushes the href and always closes the menu |
| Navigation.NavigationBar.ToggleMenu | src/components/Navigation.tsx:132 | the menu button negates `isMenuOpen` |
| Navigation.NavigationBar.ClickLink | src/components/Navigation.tsx:89-102 | clicking a link closes the menu, and when the URL changes, activates that link's section |
| Navigation.ToggleMenuTwice | src/components/Navigation.tsx:132 | two menu-button presses leave the menu as it was |
| Selection.RecordPopup.constructor | src/Experience/ExperienceSection.tsx:262 | nothing is selected initially (the same state is declared in the leadership and certification sections) |
| Selection.RecordPopup.Select | src/Experience/ExperienceSection.tsx:98-117 | selecting a record re-runs the effect keyed on it: opening pins the body at the current offset; moving to another record captures the current offset and leaves the body unpinned, because the previous run's deferred release runs after the re-pin; re-selecting the same record changes nothing (the same effect is in LeadershipSection.tsx:143-161 and CertificationsSection.tsx:46-64) |
| Selection.RecordPopup.Close | src/Experience/ExperienceSection.tsx:107-115 | clearing the selection runs the cleanup: the body is unpinned and the page scrolls back to the captured offset |
| Selection.RecordPopup.ClickPopup | src/Experience/ExperienceSection.tsx:128-144 | a backdrop or close-button click closes the popup, unpins the body and restores the offset; a click in the dialog changes nothing |
| Selection.ScrollOpenClose | src/Experience/ExperienceSection.tsx:99-117 | after the user scrolls to any offset, opening and then closing the popup returns the page to that offset, unpinned |
| Selection.OpenThenClose | src/Experience/ExperienceSection.tsx:99-117 | opening and then closing the popup leaves the page at its original offset and unpinned |
| ExperienceSection.ClickCard | src/Experience/ExperienceSection.tsx:278 | a card click selects that experience, and the popup then lists its description lines and skills; opening pins the body at the current offset |
| ExperienceSection.ClosePopup | src/Experience/ExperienceSection.tsx:315 | `onClose` makes the popup render nothing and scrolls back to the captured offset |
| LeadershipSection.ClickCard | src/Leadership/LeadershipSection.tsx:317 | a card click selects that role, and the popup then lists its description and skills; opening pins the body at the current offset |
| LeadershipSection.ClosePopup | src/Leadership/LeadershipSection.tsx:346 | `onClose` makes the popup render nothing and scrolls back to the captured offset |
| CertificationsSection.ClickCard | src/Certifications/CertificationsSection.tsx:192 | a card click selects that certificate, and the popup then shows its title and credential link; opening pins the body at the current offset |
| CertificationsSection.ClosePopup | src/Certifications/CertificationsSection.tsx:221 | `onClose` makes the popup render nothing and scrolls back to the captured offset |
| ExperienceSection.FindByCompany | src/Experience/ExperienceSection.tsx:228 | `find` returns no entry exactly when no entry has the company; a found entry belongs to the list and has the company |
| ExperienceSection.FindIsFirst | src/Experience/ExperienceSection.tsx:228 | `find` returns the first entry with the company |
| ExperienceSection.FindExistsFirst | src/Experience/ExperienceSection.tsx:228 | when `find` succeeds, there is a first entry with the company |
| ExperienceSection.LogoPlaceholder | src/Experience/ExperienceSection.tsx:226-258 | definition of the logo box on the page data; see `PlaceholderIn` and `EveryCardShowsItsLogo` |
| ExperienceSection.PlaceholderIn | src/Experience/ExperienceSection.tsx:226-258 | the logo box shows the first matching entry's logo exactly when that logo is non-empty; otherwise it shows the company's initials |
| ExperienceSection.FirstChars | src/Experience/ExperienceSection.tsx:247-248 | `map(word => word[0]).join('')` has at most one character per word, since empty words give none |
| ExperienceSection.FirstCharsOfSplit | src/Experience/ExperienceSection.tsx:246-248 | the first characters of `split(' ')`'s pieces are exactly the characters that start a word |
| ExperienceSection.InitialsOf | src/Experience/ExperienceSection.tsx:245-250 | definition of the initials fallback; see `InitialsAreWordStarts` |
| ExperienceSection.InitialsAreWordStarts | src/Experience/ExperienceSection.tsx:245-250 | the initials are the upper-cased word starts, at most two; fewer only when the name has fewer words |
| ExperienceSection.DoubleSpaceIgnored | src/Experience/ExperienceSection.tsx:246-247 | a second space between words changes no word start |
| ExperienceSection.DoubleSpaceInitials | src/Experience/ExperienceSection.tsx:245-250 | the empty word between two adjacent spaces adds nothing to the initials |
| ExperienceSection.StartsFromWord | src/Experience/ExperienceSection.tsx:246-247 | a word without spaces contributes exactly its first character when it starts after a space |
| ExperienceSection.TwoWordInitials | src/Experience/ExperienceSection.tsx:245-250 | for a name whose first two words are non-empty, the initials are those two words' first characters, upper-cased; a lone hyphen counts as a word |
| ExperienceSection.OwnEntryIsFirst | src/Experience/ExperienceSection.tsx:228 | with distinct companies, each entry is the first for its own company |
| ExperienceSection.ExperienceCompaniesDistinct | src/Experience/ExperienceSection.tsx:19-96 | the five entries have different companies |
| ExperienceSection.ExperienceLogosPresent | src/Experience/ExperienceSection.tsx:19-96 | every entry has a non-empty logo |
| ExperienceSection.EveryCardShowsItsLogo | src/Experience/ExperienceSection.tsx:228-230 | every card, which passes its own company, shows its entry's logo, so the initials fallback is never reached from the section |
| ExperienceSection.Render | src/Experience/ExperienceSection.tsx:119-218 | the popup renders nothing without a record; otherwise it lists exactly the record's description lines and skills, in order |
| LeadershipSection.RenderAward | src/Leadership/LeadershipSection.tsx:292-298 | an award card shows the title, issuer and date, and the description line exactly when the description is present and non-empty |
| LeadershipSection.AwardCards | src/Leadership/LeadershipSection.tsx:283-301 | one card per award, in order |
| LeadershipSection.EveryAwardShowsDescription | src/Leadership/LeadershipSection.tsx:103-140 | every award on the page has a description, so every card shows it |
| LeadershipSection.Render | src/Leadership/LeadershipSection.tsx:163-260 | the popup renders nothing without a role; otherwise it lists exactly the role's description and skills, in order |
| CertificationsSection.Render | src/Certifications/CertificationsSection.tsx:66-166 | the popup renders nothing without a certificate; the credential line appears exactly for a present, non-empty id; the skills block appears exactly when the list is present, in order |
| CertificationsSection.PageCredentialLines | src/Certifications/CertificationsSection.tsx:17-43 | only the Azure certificate shows a credential line; every certificate shows its skills |

## Left out

- JSX markup, Tailwind classes and framer-motion animation are presentation only. The popups' markup is reduced to the data each one shows.
- Intersection-observer geometry (root margin and threshold) is browser layout. The callback's entries are a parameter.
- `document.getElementById`, `scrollIntoView`, `router.push` and the search-parameter scroll in the page component are DOM and router I/O. The router is reduced to the current URL string.
- The release the cleanup schedules with `requestAnimationFrame` is modelled as running at the end of the commit that scheduled it, after the effect's re-run and before any further event. The model therefore does not capture an event arriving before that frame, such as re-opening within the same frame, which would capture the offset of the still-pinned page.
- ScrollLock.Body.ScrollTo: the model does not capture the browser clamping `window.scrollY` while the body is fixed. Offsets are whole and non-negative, so fractional `scrollY` is not modelled.
- ScrollLock.SwitchUnpins: while the body is `position: fixed` a browser reports `window.scrollY` as 0, so on a switch between open records the re-run would store 0 and the deferred release would scroll the page to the top. The model keeps `window.scrollY` unchanged while pinned, so it has the re-run store the offset the page had, and it does not capture that jump to the top.
- Decimal.ParseInt: models only the digit-reading part of `parseInt`. Leading whitespace, signs and hexadecimal prefixes are not modelled, because the stored text is always the output of `toString` on a whole offset.
- Text.Lower, Text.Upper: ASCII letters only. Non-ASCII case mapping is not modelled.
- Navigation.SectionParam: reads only URLs of the form `/` or `/?section=<value>`, the only forms the links push. Percent-decoding and further query parameters are not modelled.
- Navigation.NavigationBar.ClickLink: assumes the URL effect runs only when the pushed URL differs from the current one. Whether the router hands out a new `searchParams` object for an identical URL is framework behaviour outside the model.
- `handleNavClick`'s branch for a missing section id is left out, because every call site passes an id.
- The observer's `observe`/`disconnect` lifecycle is mount and unmount bookkeeping with no state to state.
- `next/image` rendering and the `onError` swap to a fallback image depend on browser image-load events.
- ProjectPopup.GetCategoryColor: keys inherited from JavaScript's object prototype (such as `constructor`) are not modelled as table keys.
- React identifies the selected record by object identity. The model uses value equality. These agree on the site's data, whose records are pairwise different.
- Selection.RecordPopup.ClickPopup: takes no zoomable-image click, since only the project popup has one.
- The education and skills sections, the quick-links bar, the layout's unused link list and the configuration files hold no logic beyond rendering. They are not part of this model.
