# Profile editor of the builder directory, modelled in Dafny

This project models the profile page of the builder directory
(`app/profile/page.tsx`). Signed-in users keep a public profile there. A
profile has a name, a bio, role tags, four social handles, two default links
("Site" and "GitHub"), any number of custom links, and an avatar image. The
model has four parts:

- **Social-link normaliser** (`social_links.dfy`, module `SocialLinks`).
  A stored Telegram, Discord, Twitter or LinkedIn value becomes the `href`
  of its icon link, and the icon is rendered only when the value is truthy.
- **Profile value and edits** (`profile_model.dfy`, module `ProfileModel`).
  This holds the `Profile`/`Link`/`Socials` shape, `DEFAULT_PROFILE`, the
  first-visit seed, and each change the edit form makes: name, bio, socials,
  role toggle, add/remove/edit link.
- **Read-only view** (`profile_display.dfy`, module `ProfileDisplay`).
  This covers the avatar, name and bio fallbacks and which default and
  custom links are rendered.
- **Component state** (`profile_session.dfy`, module `ProfileSession`).
  Class `ProfileEditor` holds `profile`, `isEditing`, `isLoading` and
  `isUploading`. Its methods are the fetch-or-create effect, the Edit and
  Discard buttons, form edits, submit and image upload. Every HTTP reply is
  an abstract outcome `Reply<T>`: `Ok(body)`, `NotFound` or `Failed`.

`wrappers.dfy` holds `Option` and JavaScript truthiness of optional strings.

Behaviour kept as the code has it:

- **Discard** only leaves edit mode. The page keeps a single `profile`, so
  edits made before Discard stay in place (`ProfileEditor.Discard`,
  `DiscardScenario`).
- **Twitter** handles lose their FIRST `'@'`, wherever it is.
  `String.replace` with a string pattern does that, so `"a@b"` gives
  `https://twitter.com/ab`.
- **Render guards** test only for the empty string. A whitespace-only
  value still renders an icon.
- **LinkedIn** values are used as the link verbatim. No prefix is added.
- **Two links minimum.** `removeLink` has no index guard of its own. At
  least two links remain only because the delete button is shown just for
  index 2 and above.
- **Failed commit.** A failed "Save Changes" changes neither the profile
  nor `isEditing`. The page stays in edit mode because it was already
  there.

## Model

| member | source | states |
|---|---|---|
| `SocialLinks.IndexOf` | app/profile/page.tsx:640 | the position `replace('@', '')` acts on: -1 iff the character is absent; otherwise it holds the character and none comes before it |
| `SocialLinks.RemoveFirst` | app/profile/page.tsx:640 | `replace('@', '')`: removes only the first '@'; its contract is carried by `RemoveFirstDropsOne` and `RemoveFirstSplitsAtFirst` |
| `SocialLinks.Href` | app/profile/page.tsx:620-650 | the href of each platform; its contract is carried by `HttpValuesPassThrough`, `HandlesArePrefixed`, `WebHrefIdempotent`, `DiscordHrefInjective` and `TelegramHrefCollides` |
| `SocialLinks.Anchor` | app/profile/page.tsx:618-657 | a platform's icon is rendered iff its stored value is present and non-empty, and then its href is the normalised value |
| `SocialLinks.SectionShown` | app/profile/page.tsx:614 | the guard of the Social Links block; related to the icons by `SectionShownIffSomeIcon` |
| `SocialLinks.RenderedHrefs` | app/profile/page.tsx:617-657 | the icon hrefs in page order; `SectionShownIffSomeIcon` states there is exactly one per truthy value and no other |
| `SocialLinks.HttpValuesPassThrough` | app/profile/page.tsx:620-650 | a value starting with "http" is the href unchanged on every platform; a LinkedIn value is always unchanged |
| `SocialLinks.HandlesArePrefixed` | app/profile/page.tsx:620-640 | a bare handle becomes `https://t.me/`+v, `discord://-/users/`+v, or `https://twitter.com/`+v with the first '@' removed |
| `SocialLinks.RemoveFirstDropsOne` | app/profile/page.tsx:640 | removing the first '@' takes exactly one '@' out and keeps every other character; no '@' means no change |
| `SocialLinks.IndexOfAfterPrefix` | app/profile/page.tsx:640 | the first occurrence is found right after a prefix that does not contain it |
| `SocialLinks.RemoveFirstSplitsAtFirst` | app/profile/page.tsx:640 | only the first occurrence is removed; the text before it and everything after it, later occurrences included, are kept |
| `SocialLinks.TwitterAtSignIsDropped` | app/profile/page.tsx:640 | "@handle" and "handle" give the same link `https://twitter.com/handle` |
| `SocialLinks.WebLinksStartWithHttp` | app/profile/page.tsx:620-640 | Telegram and Twitter hrefs always start with "http", whatever was stored |
| `SocialLinks.WebHrefIdempotent` | app/profile/page.tsx:620-640 | normalising a Telegram or Twitter href a second time changes nothing |
| `SocialLinks.DiscordHrefNotIdempotent` | app/profile/page.tsx:630 | for every bare handle, normalising the Discord href again prefixes `discord://-/users/` a second time, so the result differs |
| `SocialLinks.DiscordKeepsScheme` | app/profile/page.tsx:630 | a Discord href starts with "http" exactly when the stored value does |
| `SocialLinks.DiscordHrefInjective` | app/profile/page.tsx:630 | distinct stored Discord values give distinct links |
| `SocialLinks.TelegramHrefCollides` | app/profile/page.tsx:620 | for every bare handle, the handle and the full t.me URL built from it are distinct values giving the same Telegram link |
| `SocialLinks.GuardIsEmptinessOnly` | app/profile/page.tsx:618-648 | on every platform an empty value renders no icon, and every non-empty value made only of spaces, tabs or line breaks renders one with its normalised href |
| `SocialLinks.SectionShownIffSomeIcon` | app/profile/page.tsx:614-660 | the Social Links block is shown iff at least one icon is rendered; the number of icons equals the number of truthy values (at most four); every truthy value has its href among them and every href comes from a truthy value |
| `ProfileModel.OrEmpty` | app/profile/page.tsx:99-100 | `user.firstName` or `""`: the value when it is truthy, otherwise the empty string |
| `ProfileModel.Seed` | app/profile/page.tsx:97-102 | the first-visit document is `DEFAULT_PROFILE` with the user's first name and image url, or "" for each when absent |
| `ProfileModel.Without` | app/profile/page.tsx:418 | filtering a role out removes every occurrence and keeps every other role; never longer than before |
| `ProfileModel.WithoutDistributes` | app/profile/page.tsx:418 | filtering distributes over concatenation, so the kept roles keep their relative order |
| `ProfileModel.WithoutAbsent` | app/profile/page.tsx:418 | filtering out a role that is not there changes nothing |
| `ProfileModel.WithoutKeepsNoDuplicates` | app/profile/page.tsx:418 | filtering keeps a duplicate-free list duplicate-free |
| `ProfileModel.ToggleRole` | app/profile/page.tsx:413-425 | a role button click; its contract is carried by `ToggleFlipsMembership`, `ToggleShape`, `ToggleTwiceRestores` and `ToggleKeepsNoDuplicates` |
| `ProfileModel.ToggleFlipsMembership` | app/profile/page.tsx:409-425 | a click flips the clicked role's membership and no other role's; a missing role list counts as empty |
| `ProfileModel.ToggleShape` | app/profile/page.tsx:413-425 | a selected role disappears entirely; an unselected one is appended at the end; a missing list becomes just that role |
| `ProfileModel.ToggleTwiceRestores` | app/profile/page.tsx:413-425 | clicking an unselected role twice gives back the original list, order included |
| `ProfileModel.ToggleTwiceRestoresMembership` | app/profile/page.tsx:413-425 | clicking any role twice restores which roles are selected |
| `ProfileModel.ToggleKeepsNoDuplicates` | app/profile/page.tsx:413-425 | a role click never introduces a duplicate into a duplicate-free list |
| `ProfileModel.RemoveAt` | app/profile/page.tsx:215 | `filter((_, i) => i !== index)`; its contract is carried by `RemoveAtSpec` |
| `ProfileModel.RemoveAtSpec` | app/profile/page.tsx:214-217 | removing an existing index gives `links[..i] + links[i+1..]`; any other index leaves the links unchanged |
| `ProfileModel.RemoveAfterDefaultsKeepsDefaults` | app/profile/page.tsx:530 | removal at an index of 2 or more keeps the two default slots and at least two links; one fewer link when the index exists |
| `ProfileModel.AddLink` | app/profile/page.tsx:544 | the "Add Custom Link" button; its contract is carried by `AddLinkAppendsEmpty` |
| `ProfileModel.AddLinkAppendsEmpty` | app/profile/page.tsx:544 | adding a link appends exactly one `{name: "", url: ""}` and keeps all earlier entries |
| `ProfileModel.SetLinkName` | app/profile/page.tsx:512-515 | typing in a link name; its contract is carried by `LinkEditTouchesOnlyItsEntry` |
| `ProfileModel.SetLinkUrl` | app/profile/page.tsx:522-525 | typing in a link url; its contract is carried by `LinkEditTouchesOnlyItsEntry` |
| `ProfileModel.LinkEditTouchesOnlyItsEntry` | app/profile/page.tsx:512-525 | typing in a link's name or url changes only that field of that entry; the length and all other entries stay the same |
| `ProfileModel.WithSocial` | app/profile/page.tsx:452-495 | typing in one social field; its contract is carried by `EditTouchesOnlyItsField` |
| `ProfileModel.Apply` | app/profile/page.tsx:365-544 | one change made through the edit form; its contract is carried by `EditTouchesOnlyItsField`, `EditKeepsLinkCount` and `ProfileEditor.HandleEdit` |
| `ProfileModel.EditTouchesOnlyItsField` | app/profile/page.tsx:365-544 | each form edit changes only its own field of the profile; the image and the other socials stay the same |
| `ProfileModel.EditKeepsLinkCount` | app/profile/page.tsx:365-525 | edits other than add and remove keep the number of links |
| `ProfileModel.OfferedEditsKeepTwoLinks` | app/profile/page.tsx:503-544 | any sequence of edits the form offers keeps at least two links |
| `ProfileModel.EditsKeepRolesDuplicateFree` | app/profile/page.tsx:413-425 | any sequence of edits keeps a duplicate-free role list duplicate-free |
| `ProfileModel.SeedInvariants` | app/profile/page.tsx:44-61 | starting from the seed, offered edits always leave at least two links and duplicate-free roles |
| `ProfileDisplay.AvatarSrc` | app/profile/page.tsx:329 | the avatar is the first non-empty of the profile image, the user's image url and "/placeholder.jpg", so it is never empty |
| `ProfileDisplay.DisplayName` | app/profile/page.tsx:359 | the heading is the profile name when non-empty, else the user's first name, possibly absent |
| `ProfileDisplay.BioText` | app/profile/page.tsx:390 | the bio paragraph is the bio when non-empty, else "No bio yet"; never empty |
| `ProfileDisplay.Keep` | app/profile/page.tsx:587-588 | a link is rendered iff it is in the list and passes its guard; never more links than the list has |
| `ProfileDisplay.KeepDistributes` | app/profile/page.tsx:587-588 | filtering a concatenation filters each part in turn, so the rendered links keep their list order |
| `ProfileDisplay.KeepCountsOccurrences` | app/profile/page.tsx:667-668 | each link is rendered once per position at which it occurs and passes its guard, and never otherwise: nothing is merged or duplicated |
| `ProfileDisplay.VisibleDefaultLinks` | app/profile/page.tsx:587-588 | the default links shown; its contract is carried by `LinkVisibility` and `DefaultLinksComeFromSlots` |
| `ProfileDisplay.VisibleCustomLinks` | app/profile/page.tsx:667-668 | the custom links shown; its contract is carried by `LinkVisibility` and `CustomSectionShownIffNonEmpty` |
| `ProfileDisplay.CustomSectionShown` | app/profile/page.tsx:663 | the guard of the Other Links block; related to the shown links by `CustomSectionShownIffNonEmpty` |
| `ProfileDisplay.LinkVisibility` | app/profile/page.tsx:587-668 | a default slot shows iff its url is non-empty; a custom link shows iff both its name and url are non-empty |
| `ProfileDisplay.DefaultLinksComeFromSlots` | app/profile/page.tsx:587 | at most two default links are shown, each taken from the first two slots and each with a url |
| `ProfileDisplay.CustomSectionShownIffNonEmpty` | app/profile/page.tsx:663-668 | the Other Links block is shown iff at least one custom link is rendered |
| `ProfileDisplay.SeedView` | app/profile/page.tsx:97-102 | a freshly seeded profile shows the user's first name, the user's image or the placeholder, "No bio yet", and no links or social icons |
| `ProfileSession.AfterFetch` | app/profile/page.tsx:93-122 | after the initial fetch the profile is the stored document, or the created one after a 404; on any failure it is unchanged |
| `ProfileSession.ProfileEditor.constructor` | app/profile/page.tsx:72-76 | the page starts with `DEFAULT_PROFILE`, not editing, nothing loading or uploading |
| `ProfileSession.ProfileEditor.FetchProfile` | app/profile/page.tsx:88-122 | without a user nothing happens; a 404 sends exactly one PUT of the seed for that user id; the flags are untouched |
| `ProfileSession.ProfileEditor.StartEditing` | app/profile/page.tsx:298 | the Edit button enters edit mode and changes nothing else |
| `ProfileSession.ProfileEditor.Discard` | app/profile/page.tsx:556 | Discard only leaves edit mode; the profile keeps its edits |
| `ProfileSession.ProfileEditor.HandleEdit` | app/profile/page.tsx:365-544 | a form edit replaces the profile by its edited copy, changing only the edited field |
| `ProfileSession.ProfileEditor.Submit` | app/profile/page.tsx:181-203 | with a user, the whole profile is PUT; success leaves edit mode, failure keeps the mode; the profile never changes; loading is clear after either |
| `ProfileSession.ProfileEditor.UploadImage` | app/profile/page.tsx:154-179 | success sets only the profile image to the returned url; failure changes nothing; the upload flag is clear after either; no file means no change |
| `ProfileSession.FirstVisitScenario` | app/profile/page.tsx:93-115 | a first visit sends the seed and takes the stored reply as the profile, out of edit mode and idle |
| `ProfileSession.DiscardScenario` | app/profile/page.tsx:556 | edit the name, then Discard: the new name is kept |
| `ProfileSession.FailedUploadScenario` | app/profile/page.tsx:154-179 | a failed upload while editing keeps the profile and edit mode and clears the upload flag |
| `ProfileSession.RemoveThirdLinkScenario` | app/profile/page.tsx:214-217 | removing the third of four links keeps the other three in order |

## Left out

- `app/layout.tsx` is not part of this model. It holds static metadata and
  page chrome, with no logic.
- HTTP, JSON parsing, toasts and console logging are foreign I/O. Each
  request is reduced to the outcome of its reply. The PUT reply body of
  "Save Changes" is never read by the page, so only its success matters.
- The seeded PUT body also carries a `userId` field (:101). The model keeps
  the user id on the request (`Put.userId`) instead of in the `Profile`
  value.
- The project feed is not modelled: `fetchUserProjects`, `projects`,
  `isLoadingProjects` and the project cards (:132-149, :717-758). The
  `Project` type lives in app/types, which is not part of this model, and
  this state never touches the profile.
- Authentication and navigation are external services and browser APIs:
  the sign-in redirect (:80-85), logout (:205-212), and share-to-clipboard
  (:219-230).
- Each handler is one atomic step. The model leaves out the event-loop
  interleaving of upload and submit, and React's stale `profile` closures
  in `setProfile({...profile, ...})`.
- Link edits copy the array and then mutate the shared `Link` object
  (:513-514, :523-524), which can reach the `DEFAULT_LINKS` constant. The
  model treats each link edit as a value update and does not model this
  aliasing.
- A link edit at an index with no entry throws inside the handler before
  `setProfile` runs. The model represents that as "no change".
- The `Role` enumeration and `ROLE_COLORS` live in app/types and are
  presentation. A role is modelled by its string value, and the rendering
  of role tags (:378-389) is not modelled.
- A stored document without `links` makes the page throw while rendering,
  in the view (:587) and in the edit form (:503). One without `socials`
  renders the view, which guards it (:614), but throws in the edit form
  (:452, :464, :476, :488). The model's `Profile` always has both fields,
  so neither failure is modelled. Extra keys inside `socials` are not
  modelled either.
- Icons, alt texts, animations and styling are presentation only.
