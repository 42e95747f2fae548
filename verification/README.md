# Carbnb client logic in Dafny

Carbnb is a car-rental app (React Native with Expo, backed by Supabase). This
project models the parts of its client that decide what the user sees:

- **Search results** (`app/TestSearchPage.tsx`): the backend request chosen
  for a query, the mapping of raw `cars` rows to listings (defaults, first
  photo, tag normalisation of arrays and JSON strings), and the client-side
  filter by price range, car type and feature tags, including the filter
  badge. The screen's state is the class `SearchPage.SearchScreen`.
- **Filter dialog** (`components/FilterModal.tsx`): the dialog's local copy
  of the four filter values, the slider, the car-type and feature-tag
  toggles, Clear, and Apply with its floor/fallback of the prices
  (`FilterModal.FilterDialog`).
- **Image gallery** (`components/SlideViewModal.tsx`): index navigation,
  web zoom clamped to [1, 3] in steps of 0.5, mouse dragging, swipe
  decisions and keyboard shortcuts (`SlideView.Gallery`). The component also
  defines a zoom toggle (`toggleWebZoom`, lines 84-93) that no event invokes:
  the web image wires only the drag handlers (lines 229-232), the native
  double-tap handler is empty (lines 210-213), and the web hint at line 291
  still offers "Click to zoom/reset". It is modelled as the handler it is.
- **Profile data** (`app/profile.tsx`): the role and join year fetched from
  the `users` table and cached per user under `userRole-<id>` and
  `joinYear-<id>`, read back at startup, cleared at logout
  (`Profile.ProfileScreen`).
- **Theme and language** (`context/ThemeContext.tsx`,
  `context/I18nContext.tsx`, `components/LanguageSwitcher.tsx`): the light/
  dark theme and the current language, both loaded from and saved to device
  storage, with right-to-left layout exactly for Arabic.

Each source file is one module. Pure rules (the filter, the tag toggle, the
zoom clamp, the cache update) are functions with lemmas about them; the
components' state hooks become classes whose methods are specified by those
functions. Whenever evaluating the filter does not throw, it is proved
equal to an independent rule (`Wanted`, `KeepWanted`): a car is displayed
iff its price is in range, when a type is selected some tag equals it
ignoring case, and every selected feature tag is among its tags after
trimming and lower-casing; the fetched order is kept and nothing is added or
duplicated. It throws exactly when a type is selected and a tag that is not
a string comes before any matching tag (`SearchPage.CarVerdictSpec`,
`SearchPage.FilterCarsDefined`).

Inputs the app receives from outside are parameters: the backend's reply
(`backend: Request -> Reply`, `UserFetch`), `JSON.parse`
(`decode: string -> Decoded`), the translated "unknown location" text, the
device colour scheme, the platform's right-to-left flag, whether the
platform is the web, and the swipe threshold. Local storage and
AsyncStorage are `map<string, string>` fields. The user id handed to
`Profile.ProfileScreen.HandleLogout` is the value of
`supabase.auth.currentUser?.id` (app/profile.tsx:232); when that is absent or
empty, logout removes no cached key.

## Model

| member | source | states |
|---|---|---|
| SearchPage.RequestFor | app/TestSearchPage.tsx:62-90 | the newest 50 listings are requested iff the trimmed query is empty; otherwise the fuzzy search gets the trimmed query and threshold 0.05 |
| SearchPage.NormalizeTags | app/TestSearchPage.tsx:96-109 | an array is kept as is, a string that decodes to an array gives that array, any other string or value gives no tags |
| SearchPage.StringAndArrayTagsAgree | app/TestSearchPage.tsx:97-104 | a tags string that decodes to an array normalises to the same tags as the array itself |
| SearchPage.MapRow | app/TestSearchPage.tsx:111-122 | the listing keeps the id; the name is the title or "Unknown Car" (never empty); price defaults to 0; image is the first photo or the placeholder; location falls back to the translated text; rating 4.5; tags normalised; type is the raw tags or "" |
| SearchPage.MapRows | app/TestSearchPage.tsx:95-123 | every row is mapped, in order, one listing per row |
| SearchPage.TypeScanSpec | app/TestSearchPage.tsx:156-158 | the type scan answers true iff a matching tag comes before any non-string tag, false iff all tags are strings and none matches, and throws otherwise |
| SearchPage.FeatureScanSpec | app/TestSearchPage.tsx:163-166 | one selected feature is found iff some string tag equals it after trimming and lower-casing |
| SearchPage.FeatureMatchSpec | app/TestSearchPage.tsx:160-167 | the feature criterion holds iff every selected tag is among the car's tags (vacuous when none is selected) |
| SearchPage.EveryFeatureSpec | app/TestSearchPage.tsx:161-167 | the `every` over the selected tags holds iff each of them is found among the car's tags |
| SearchPage.CarVerdictSpec | app/TestSearchPage.tsx:151-169 | a car's verdict, when evaluating it does not throw, is the reference rule `Wanted`; it throws iff a type is selected, no matching tag precedes the first non-string tag, and some tag is not a string |
| SearchPage.StringTagsNeverThrow | app/TestSearchPage.tsx:156-169 | a car whose tags are all strings always gets the verdict `Wanted` |
| SearchPage.FilterCarsDefined | app/TestSearchPage.tsx:150-171 | the filter throws iff evaluating some car throws |
| SearchPage.FilterCarsIsKeepWanted | app/TestSearchPage.tsx:150-171 | when the filter does not throw it equals the reference filter `KeepWanted` |
| SearchPage.KeepWantedSubsequence | app/TestSearchPage.tsx:150-171 | the reference filter's result is a subsequence of the fetched list |
| SearchPage.KeepWantedCounts | app/TestSearchPage.tsx:150-171 | each wanted car occurs as often as in the input and every other car not at all |
| SearchPage.DisplayedCars | app/TestSearchPage.tsx:150-171 | the displayed list keeps the fetched order, contains a car iff it was fetched and meets all three criteria, and duplicates nothing |
| SearchPage.EmptyCriteriaPass | app/TestSearchPage.tsx:153-167 | with no type and no feature tag selected nothing throws and only the price range filters |
| SearchPage.DefaultFiltersShowAll | app/TestSearchPage.tsx:51-54 | under the initial filters (0, 500, no type, no tags) the displayed list is the whole fetched list iff every price lies in [0, 500] |
| SearchPage.CaseInsensitiveFeatureExample | app/TestSearchPage.tsx:163-166 | a car tagged "gps" priced 100 is shown when "GPS" is selected |
| SearchPage.AllFeaturesRequiredExample | app/TestSearchPage.tsx:160-167 | a car tagged only "GPS" is hidden when "GPS" and "Bluetooth" are both selected |
| SearchPage.BadgeShownIffCounted | app/TestSearchPage.tsx:244-248 | the "+N filters" badge is rendered iff N > 0, and not under the initial filters |
| SearchPage.SearchScreen.constructor | app/TestSearchPage.tsx:45-54 | the screen starts loading, with nothing fetched, no error, the dialog hidden and the initial filters |
| SearchPage.SearchScreen.FetchCarListings | app/TestSearchPage.tsx:59-133 | a backend error sets "Search failed: <message>" and empties the list; an empty result does the same with the TypeError text; otherwise the mapped rows are stored with no error; loading ends and the filters are untouched |
| SearchPage.SearchScreen.OpenFilters | app/TestSearchPage.tsx:227-230 | the filter button shows the dialog |
| SearchPage.SearchScreen.CloseFilters | app/TestSearchPage.tsx:264 | the dialog's close hides it |
| SearchPage.SearchScreen.ApplyFilters | app/TestSearchPage.tsx:140-146 | all four filter values are replaced, the dialog is hidden, the fetched list is untouched and the displayed list is the filter under the new values |
| SearchPage.SearchScreen.ApplyFromDialog | app/TestSearchPage.tsx:262-270 | the screen's filters become the values the dialog's Apply passes, and the dialog is hidden |
| SearchPage.ClearThenApply | components/FilterModal.tsx:187-204 | Clear then Apply restores the initial filters and hides the dialog, so every fetched car priced in [0, 500] is displayed |
| FilterModal.RemoveAllSpec | components/FilterModal.tsx:182 | removing a tag removes every copy of it and keeps every other tag as often as before and in order |
| FilterModal.RemoveAllAbsent | components/FilterModal.tsx:182 | removing an absent tag changes nothing |
| FilterModal.ToggledSpec | components/FilterModal.tsx:179-185 | toggling flips the membership of the tag and of no other tag; a present tag leaves the rest in order, an absent one is appended |
| FilterModal.ToggleAbsentTwice | components/FilterModal.tsx:179-185 | toggling an absent tag twice gives back the original list |
| FilterModal.ToggleFlipsEveryCopy | components/FilterModal.tsx:53-63 | pressing one of the duplicated "All-Wheel Drive" buttons flips the selected state of all of them and of no other button |
| FilterModal.PressedCarType | components/FilterModal.tsx:390-393 | pressing the selected type clears it, pressing any other type selects it |
| FilterModal.CarTypeButtonsExclusive | components/FilterModal.tsx:386-393 | pressing one of the four car-type buttons never leaves another of them selected |
| FilterModal.FinalPrice | components/FilterModal.tsx:188-193 | a finite price is rounded down (r <= v < r + 1); a non-finite one becomes the limit |
| FilterModal.FilterDialog.constructor | components/FilterModal.tsx:150-156 | local state starts as a copy of the incoming values |
| FilterModal.FilterDialog.SyncFromProps | components/FilterModal.tsx:159-170 | opening the dialog or new incoming values reset all four local values to them |
| FilterModal.FilterDialog.SliderChange | components/FilterModal.tsx:172-177 | a pair of slider values replaces the range; any other number of values changes nothing |
| FilterModal.FilterDialog.ToggleTag | components/FilterModal.tsx:179-185 | the selected tags become the toggled list: the tag's button flips its selected state, every other tag's stays |
| FilterModal.FilterDialog.PressCarType | components/FilterModal.tsx:390-393 | a car-type press sets the selection as `PressedCarType` says: the pressed button flips its selected state and no other type is selected |
| FilterModal.FilterDialog.Clear | components/FilterModal.tsx:199-204 | the dialog returns to 0, 500, no type, no tags, and Apply would then pass exactly those |
| FilterModal.FilterDialog.Apply | components/FilterModal.tsx:187-197 | the prices passed are the floors of finite local prices, 0 and 500 for non-finite ones, with the local type and tags |
| SlideView.ZoomedIn | components/SlideViewModal.tsx:72-74 | one step of 0.5 up, capped at 3: the result is the smaller of z + 0.5 and 3 |
| SlideView.ZoomedOut | components/SlideViewModal.tsx:76-78 | one step of 0.5 down, floored at 1: the result is the larger of z - 0.5 and 1 |
| SlideView.ZoomInThenOut | components/SlideViewModal.tsx:72-78 | away from the maximum, zooming in then out restores the zoom |
| SlideView.ZoomButtonLimits | components/SlideViewModal.tsx:80-81 | a zoom button is marked at its limit exactly when pressing it would change nothing |
| SlideView.SwipeDecision | components/SlideViewModal.tsx:161-172 | a swipe longer than the threshold to the left shows the next image and to the right the previous one, when there is one; shorter swipes do nothing |
| SlideView.ActionForKey | components/SlideViewModal.tsx:126-145 | ArrowLeft, ArrowRight, Escape, "+" or "=", and "-" map to previous, next, close, zoom in and zoom out; every other key does nothing |
| SlideView.DragFollowsPointer | components/SlideViewModal.tsx:96-113 | moving the pointer by d from where the drag started pans by d; returning to the start restores the pan |
| SlideView.Gallery.constructor | components/SlideViewModal.tsx:32-41 | the gallery starts at the initial index with zoom 1, no pan and no drag |
| SlideView.Gallery.SetVisible | components/SlideViewModal.tsx:44-52 | becoming visible from hidden resets index, zoom and pan; hiding, or the same value again, leaves them; the gallery renders iff visible with at least one image |
| SlideView.Gallery.Prev | components/SlideViewModal.tsx:55-61 | back one image with zoom and pan reset, except at the first image; the previous button is shown exactly when pressing it moves; the index stays in range |
| SlideView.Gallery.Next | components/SlideViewModal.tsx:63-69 | forward one image with zoom and pan reset, except at the last image; the next button is shown exactly when pressing it moves; the index stays in range |
| SlideView.Gallery.ZoomInStep | components/SlideViewModal.tsx:72-74 | zoom becomes `ZoomedIn` of the old zoom and stays in [1, 3]; the zoom-in button is disabled exactly when pressing it changes nothing |
| SlideView.Gallery.ZoomOutStep | components/SlideViewModal.tsx:76-78 | zoom becomes `ZoomedOut` of the old zoom and stays in [1, 3]; the zoom-out button is disabled exactly when pressing it changes nothing |
| SlideView.Gallery.ToggleWebZoom | components/SlideViewModal.tsx:84-93 | on the web a zoomed image resets zoom and pan and an unzoomed one jumps to zoom 3; elsewhere nothing changes (no event of the component calls this handler) |
| SlideView.Gallery.DragStart | components/SlideViewModal.tsx:96-104 | only a zoomed image starts a drag, anchored at pointer minus pan |
| SlideView.Gallery.DragMove | components/SlideViewModal.tsx:106-113 | while dragging the pan is pointer minus anchor; otherwise unchanged |
| SlideView.Gallery.DragEnd | components/SlideViewModal.tsx:115-117 | dragging stops |
| SlideView.Gallery.SwipeEnd | components/SlideViewModal.tsx:161-172 | the end of a swipe moves as `SwipeDecision` says, resetting zoom and pan when it moves; the index stays in range |
| SlideView.Gallery.KeyDown | components/SlideViewModal.tsx:120-146 | on the web while visible each key has its action's effect (ArrowLeft at the first image and ArrowRight at the last change nothing), Escape closes; elsewhere nothing happens; zoom and index stay in range |
| SlideView.DragRoundTrip | components/SlideViewModal.tsx:96-113 | pressing on a zoomed image and moving back to the same point leaves the pan unchanged |
| Profile.YearOf | app/profile.tsx:120 | the join year is the first four characters of `created_at`, or all of a shorter string |
| Profile.KeysDistinct | app/profile.tsx:102-103 | two users' role keys (or year keys) coincide only for the same user, and a role key is never a year key |
| Profile.FetchTouchesOnlyOwnKeys | app/profile.tsx:89-148 | a fetch for one user changes no storage key other than that user's two keys |
| Profile.FetchIsolatesUsers | app/profile.tsx:89-148 | another user's cached role and year survive the fetch |
| Profile.FetchStateMatchesCache | app/profile.tsx:97-140 | after a fetch that did not throw, the cache read back gives exactly the new role and year |
| Profile.ThrowKeepsCache | app/profile.tsx:141-147 | an exception clears both values and leaves storage as it was |
| Profile.NoRowClearsBoth | app/profile.tsx:97-104 | a real error or a missing row clears both role and year |
| Profile.YearIsPrefix | app/profile.tsx:117-122 | a shown join year comes from a non-empty `created_at` and is its first four characters |
| Profile.RoleLabel | app/profile.tsx:282-290 | a role line is shown iff the role is non-empty, as the role upper-cased |
| Profile.ProfileScreen.constructor | app/profile.tsx:73-77 | no user, no session, loading, no role or year |
| Profile.ProfileScreen.FetchUserData | app/profile.tsx:89-148 | role and year become the fetched values; storage is updated for this user's keys only, and agrees with the new state unless the call threw |
| Profile.ProfileScreen.CheckSession | app/profile.tsx:153-201 | with a signed-in user the non-empty cached role and year are shown at once; without a session user, role and year are cleared; loading ends |
| Profile.ProfileScreen.AuthStateChanged | app/profile.tsx:206-221 | a session with a user refreshes that user's data; otherwise role and year are cleared and storage is untouched |
| Profile.ProfileScreen.HandleLogout | app/profile.tsx:230-248 | the current user's two keys are removed, both values cleared, loading ends |
| Profile.FetchThenRestart | app/profile.tsx:172-190 | a fetched role and year are exactly what the next startup shows from the cache |
| ThemeContext.ThemeName | context/ThemeContext.tsx:4 | a theme is stored as "light" or "dark" |
| ThemeContext.ParseTheme | context/ThemeContext.tsx:28-31 | a saved value is applied iff it is "dark" or "light" |
| ThemeContext.ParseThemeName | context/ThemeContext.tsx:28-38 | a saved theme reads back as itself, and only its own name reads back as it |
| ThemeContext.InitialTheme | context/ThemeContext.tsx:21-23 | the theme starts dark exactly for a dark device scheme |
| ThemeContext.Toggled | context/ThemeContext.tsx:36 | toggling always changes the theme |
| ThemeContext.ToggleTwice | context/ThemeContext.tsx:36 | two toggles restore the theme |
| ThemeContext.ThemeProvider.constructor | context/ThemeContext.tsx:21-23 | the provider starts with the device-derived theme |
| ThemeContext.ThemeProvider.LoadSaved | context/ThemeContext.tsx:26-33 | a saved "dark" or "light" replaces the theme; anything else leaves it |
| ThemeContext.ThemeProvider.ToggleTheme | context/ThemeContext.tsx:35-39 | the theme flips and its name is saved under "theme", so it reads back as the new theme |
| ThemeContext.ToggleThenRestart | context/ThemeContext.tsx:26-39 | a toggled theme is what a restarted provider shows, whatever the device scheme |
| I18nContext.SavedLanguage | context/I18nContext.tsx:47-48 | a saved language is used iff one is stored and it is non-empty |
| I18nContext.I18nProvider.constructor | context/I18nContext.tsx:42 | the provider starts in English with the platform's layout direction |
| I18nContext.I18nProvider.LoadSaved | context/I18nContext.tsx:45-54 | a non-empty saved language is applied to the state and the library, with right-to-left exactly for Arabic |
| I18nContext.I18nProvider.ChangeLanguage | context/I18nContext.tsx:56-67 | the language is applied to the state and the library, saved under "lang", and right-to-left is forced exactly for Arabic |
| I18nContext.ChangeThenRestart | context/I18nContext.tsx:45-67 | a non-empty chosen language and its direction are what a restarted provider shows; an empty one is not restored |
| LanguageSwitcher.NextLanguage | components/LanguageSwitcher.tsx:8-10 | the button switches to Arabic exactly from English, and to English from anything else |
| LanguageSwitcher.SwitchLabel | components/LanguageSwitcher.tsx:16 | the caption offers Arabic exactly while the language is English |
| LanguageSwitcher.ToggleTwice | components/LanguageSwitcher.tsx:8-10 | two presses from English or Arabic return to the start; from any other language they end in Arabic |
| LanguageSwitcher.ToggleLanguage | components/LanguageSwitcher.tsx:8-10 | a press changes the screen and the translation library to the next language, saves it and forces right-to-left exactly when leaving English |

## Left out

- Network, authentication and storage calls are not executed: the backend's reply, the session, `JSON.parse` and the translated texts are inputs, and storage is a map. The order in which asynchronous effects interleave is not modelled; each handler runs to completion.
- String case mapping and `trim` cover ASCII letters and the ASCII white-space characters only; Unicode case folding and Unicode white space are not modelled.
- Prices on the search screen are integers; the dialog's prices are reals with an explicit non-finite case. JavaScript's floating-point rounding is not modelled.
- SearchPage.SearchScreen.FetchCarListings: the text of the error raised when the backend returns no rows is the V8 TypeError message; other engines word it differently. The `console` logging is left out.
- The inner `try`/`catch` around the join year (app/profile.tsx:119-130) is not modelled: `created_at` is a string here, so `substring` cannot throw, and the block is reached only when the storage write at line 122 throws (a full quota, private browsing, or no `localStorage` at all off the web). Storage writes are modelled as never throwing.
- The comment at app/profile.tsx:145 says a failed fetch keeps the state; the code clears role and year, and the model follows the code (`Profile.ThrowKeepsCache`).
- Profile.ProfileScreen.CheckSession: the background refresh it starts is the separate `FetchUserData` call, and the session error is only logged.
- Profile.ProfileScreen.HandleLogout: the `signOut` call and its logged error are left out; the source clears the values whatever it returns.
- SlideView.Gallery.ToggleWebZoom: models a handler that the component defines but never attaches to an event, so no user action reaches it.
- SlideView.Gallery.SetVisible: `initialIndex` is fixed for a gallery, so the reset effect re-running on a new `initialIndex` while visible is not modelled.
- Profile.ProfileScreen.HandleLogout: whether the auth client exposes `currentUser` is not modelled; the id is an input, and an absent id leaves the cache as it was.
- SlideView.Gallery.SwipeEnd: the swipe threshold (a fifth of the window width) is a positive parameter; the spring animation back to 0 and the swipe gesture plumbing are left out, as is the rule that the gesture handler is enabled only off the web.
- Rendering, styling, fonts, icons and navigation are left out, and so are the screens and components that only present data (car cards, search bar, tabs, bottom bar, login, register, the inbox, the car details page and the review page).
- The default context values used outside a provider (a light theme whose toggle does nothing; English with an identity translation) are not modelled.
- The translation library itself is not modelled: `libraryLang` records the language it was last set to.
