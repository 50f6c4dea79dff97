# Little Lemon: a verified model of the app's core

This project models the core of the Little Lemon restaurant app (React
Native). It covers the following parts:

- **Menu database** (`screens/database.js`). A SQLite table of menu items
  can be created, filled and read back. The filter query is built from the
  selected categories and a search text. Modelled as the class
  `MenuDatabase.MenuStore`, which holds:
  - whether the table exists;
  - its rows with auto-increment ids;
  - the log of SQL statements issued.
  `BuildFilterQuery` builds the filter query.
- **Home screen** (`screens/Home.js`). Four category chips toggle a
  selection. The selection and the search text drive the filter query.
  Modelled in module `HomeScreen`.
- **Onboarding form** (`screens/Onboarding.js`). It validates a first name
  and an email with two regular expressions on the trimmed input, shows
  error lines, and enables Next only for a valid form. Modelled in module
  `Onboarding`. The JavaScript `trim` and `\s` use the ECMAScript
  whitespace set, written out in `JsText`.
- **Two profile screens**:
  - `screens/Profile.js`, modelled in `ProfileScreen`;
  - `screens/SplashScreen.js`, a second component also named Profile, modelled in `SplashScreen`.

  Each keeps names, email, phone, an avatar URI and notification
  switches. Each loads and saves one stored record, picks or removes the
  avatar, and shows initials when there is no avatar. Their shared display
  logic (initials, switch labels, switch update) is in `ProfileText`.
- **App root** (`App.js`). It reads the onboarding flag while the splash
  screen shows. It then registers either Home or Onboarding, plus Profile.
  Finishing onboarding stores the flag. Modelled as the class `App.AppState`.

Where the model follows a component's state through its handlers, that
state (its `useState` fields) is a class whose methods update the fields:
both profile screens, the App root and the menu database. Home and
Onboarding are modelled as functions of their state instead: the chip
selection as a value that each tap maps to the next one, and the form as
what it renders and does for given field texts. Pure computations are
functions, with lemmas about them. The outside world becomes parameters:

- what the key-value store returns;
- whether a write fails;
- what the image picker returns;
- the navigation route;
- `JSON.parse`, as a function from text to a JSON value or a thrown error.

The SQL engine is modelled only as far as the app depends on it:

- `CREATE TABLE IF NOT EXISTS` is idempotent;
- `AUTOINCREMENT` hands out fresh increasing ids;
- an insert into a missing table fails and adds no row;
- a `SELECT *` returns the stored rows.

## Model

| member | source | states |
|---|---|---|
| MenuDatabase.BuildFilterQuery | screens/database.js:33-45 | The query is the base query, plus an `IN` clause with one placeholder per category when categories are given, plus a `LIKE` clause when the search text is non-empty. The parameters are the categories followed by `%text%`. |
| MenuDatabase.PlaceholdersMatchParams | screens/database.js:34-45 | For every input, the number of `?` placeholders in the built query equals the number of parameters bound to it. |
| MenuDatabase.Placeholders | screens/database.js:38 | `categories.map(() => '?').join(', ')` for n categories. Its count is stated by `PlaceholdersCount`. |
| MenuDatabase.FilterQueryText | screens/database.js:34-45 | The filter query for n categories, with or without a search clause. `BuildFilterQuery` returns it, and `PlaceholdersMatchParams` counts its placeholders. |
| MenuDatabase.FilterParams | screens/database.js:35-44 | The bound parameters: the categories, then `%text%` for a non-empty search. `FilterParamsLayout` states their layout. |
| MenuDatabase.InsertStatements | screens/database.js:16-21 | The INSERT statements `saveMenuItems` issues, one per item. `InsertsOnePerItem` states their number and bindings. |
| MenuDatabase.PlaceholdersCount | screens/database.js:38 | `categories.map(() => '?').join(', ')` holds exactly n placeholders. |
| MenuDatabase.FilterQueryExtendsBase | screens/database.js:34-45 | Every filter query starts with `SELECT * FROM menu WHERE 1=1`. Adding the search clause only appends text. |
| MenuDatabase.EmptyFilterIsBase | screens/database.js:34-35 | No categories and an empty search give the bare base query and no parameters. |
| MenuDatabase.FilterParamsLayout | screens/database.js:39-44 | The parameters start with the categories in order. One more parameter, `%text%`, exists exactly when the search text is non-empty. |
| MenuDatabase.InsertsOnePerItem | screens/database.js:16-21 | `saveMenuItems` issues exactly one INSERT per item. The i-th INSERT binds the i-th item's fields in column order. |
| MenuDatabase.NumberedRows | screens/database.js:9 | The rows inserted for n items are the items in order, numbered with consecutive ids from the next free id. |
| MenuDatabase.AsText | screens/database.js:48 | Filter parameters are bound as text values, one per parameter, in order. |
| MenuDatabase.InsertKeepsIdsFresh | screens/database.js:9 | Appending auto-numbered rows keeps the ids increasing and below the next free id. The table's items are the old items followed by the new ones. |
| MenuDatabase.FreshIdsAreUnique | screens/database.js:9 | Ids handed out by the auto-increment key are pairwise distinct. |
| MenuDatabase.InsertThenRead | screens/database.js:14-31 | After items are saved into a table with fresh ids, the table's rows are the earlier rows followed by the saved items in order, and the ids stay unique. `GetMenuItems` then delivers the same rows, as a multiset. |
| MenuDatabase.MenuStore.constructor | screens/database.js:4 | A fresh database has no table, no rows and no issued statements. The first id will be 1. |
| MenuDatabase.MenuStore.CreateTable | screens/database.js:6-12 | Issues the CREATE statement. The table then exists. Existing rows and the id counter are unchanged, so the call is idempotent. |
| MenuDatabase.MenuStore.InsertItem | screens/database.js:17-20 | Issues the INSERT for the item. When the table exists it appends the row with the next id; otherwise nothing is stored. |
| MenuDatabase.MenuStore.SaveMenuItems | screens/database.js:14-23 | Issues one INSERT per item in order. The rows grow by exactly the numbered items when the table exists and are unchanged otherwise. The store's invariant is kept. |
| MenuDatabase.MenuStore.GetMenuItems | screens/database.js:25-31 | Issues `SELECT * FROM menu;`, changes no row and keeps the store's invariant. The callback receives rows only when the table exists, and it receives exactly the stored rows (as a multiset). |
| MenuDatabase.MenuStore.FilterMenuItems | screens/database.js:33-52 | Issues the built filter query with its parameters bound as text. The table is unchanged and the store's invariant is kept. |
| HomeScreen.Without | screens/Home.js:25 | `filter(c => c !== category)` keeps exactly the other elements and shrinks the list when the category was present. |
| HomeScreen.Toggle | screens/Home.js:22-28 | toggleCategory: removes a selected category and appends one that is not selected. The toggle lemmas below state its effect. |
| HomeScreen.ApplyToggles | screens/Home.js:22-28 | The selection after a sequence of chip taps. `TogglesStayDistinct`, `TogglesStayWithin` and `SelectionFromChips` state its properties. |
| HomeScreen.ToggleAbsentAppends | screens/Home.js:22-28 | Toggling a category that is not selected appends it at the end and keeps the earlier order. |
| HomeScreen.TogglePresentRemoves | screens/Home.js:22-28 | Toggling a selected category removes it and keeps every other selection. |
| HomeScreen.ToggleFlipsMembership | screens/Home.js:22-28 | A toggle flips the membership of the tapped category and of no other. |
| HomeScreen.ToggleKeepsOrderOfOthers | screens/Home.js:22-28 | A toggle keeps the other categories in their relative order. |
| HomeScreen.ToggleTwiceRestores | screens/Home.js:22-28 | Selecting and then deselecting a category restores the previous selection. |
| HomeScreen.ToggleKeepsDistinct | screens/Home.js:22-28 | A toggle never introduces a duplicate. |
| HomeScreen.TogglesStayDistinct | screens/Home.js:22-28 | Any sequence of taps keeps the selection free of duplicates. |
| HomeScreen.TogglesStayWithin | screens/Home.js:22-28 | Taps on allowed categories keep the selection within them. |
| HomeScreen.SelectionFromChips | screens/Home.js:6 | Starting from no selection, any taps on the four chips leave a duplicate-free selection of at most four of the listed categories. |
| HomeScreen.HomeFilterParams | screens/Home.js:18-20 | The filter query Home issues carries at most five parameters, and its category parameters contain no duplicate. |
| JsText.ToUpper | screens/Profile.js:77 | Upper-casing keeps the length, maps each character, and leaves no lower-case letter. |
| JsText.TrimStart | screens/Onboarding.js:19 | Trimming the start keeps a suffix of the input that does not start with whitespace. `TrimStartDropsWhitespace` states that what it drops is whitespace. |
| JsText.TrimEnd | screens/Onboarding.js:19 | Trimming the end keeps a prefix of the input that does not end with whitespace. `TrimEndDropsWhitespace` states that what it drops is whitespace. |
| JsText.TrimStartDropsWhitespace | screens/Onboarding.js:19 | Every character that trimming the start drops is whitespace. |
| JsText.TrimEndDropsWhitespace | screens/Onboarding.js:19 | Every character that trimming the end drops is whitespace. |
| JsText.Trim | screens/Onboarding.js:19-20 | `trim()` leaves no whitespace at either end. |
| JsText.TrimSplit | screens/Onboarding.js:19-20 | `trim()` is the slice of the input at some offset, and every character outside that slice is whitespace. |
| JsText.TrimIgnoresPadding | screens/Onboarding.js:19-20 | Whitespace padding on either side does not change the trimmed text. |
| JsText.TrimIdempotent | screens/Onboarding.js:19-20 | Trimming twice is trimming once. |
| Onboarding.MatchesEmailPattern | screens/Onboarding.js:20 | The regular expression `^[^\s@]+@[^\s@]+\.[^\s@]+$`: some `@` and some later `.` split the text into three non-empty runs without whitespace or `@`. |
| Onboarding.IsEmailText | screens/Onboarding.js:20 | The executable email test. `EmailTextMatchesPattern` proves it equal to the regular expression. |
| Onboarding.IsFirstNameValid | screens/Onboarding.js:19 | isFirstNameValid: the letters-only pattern on the trimmed text. `FirstNameValidIff` characterises it without trimming. |
| Onboarding.IsEmailValid | screens/Onboarding.js:20 | isEmailValid: the email pattern on the trimmed text. `ValidityIgnoresPadding` states that padding does not matter. |
| Onboarding.IsFormValid | screens/Onboarding.js:21 | isFormValid: both fields are valid. |
| Onboarding.Render | screens/Onboarding.js:49-69 | The two error lines and the disabled state of Next for given field texts. `FormBehaviour` states when each shows. |
| Onboarding.HandleNextPress | screens/Onboarding.js:23-27 | Whether pressing Next calls `onFinish`. `FormBehaviour` states when it does. |
| Onboarding.IndexOf | screens/Onboarding.js:20 | The first position of a character, or the length when it is absent. |
| Onboarding.EmailTextMatchesPattern | screens/Onboarding.js:20 | The executable email check (no whitespace, one `@` not first, a `.` strictly inside the domain) holds exactly when the text matches `^[^\s@]+@[^\s@]+\.[^\s@]+$`, in both directions. |
| Onboarding.FirstNameValidIff | screens/Onboarding.js:19 | A first name is valid exactly when it is a non-empty run of ASCII letters with only whitespace before and after it, proved in both directions. |
| Onboarding.ValidityIgnoresPadding | screens/Onboarding.js:19-21 | Leading and trailing whitespace never change whether either field is valid. |
| Onboarding.FormBehaviour | screens/Onboarding.js:23-69 | An error line shows exactly for a non-empty invalid field. The empty form shows no error and keeps Next disabled. Any shown error disables Next. Pressing Next calls `onFinish` exactly when the form is valid and `onFinish` is given. |
| Onboarding.BlankNameShowsError | screens/Onboarding.js:49 | A first name of only spaces is invalid and shows the error line. |
| ProfileText.Initials | screens/Profile.js:76-83 | The initials have one character per non-empty name: the upper-cased first character of the first name, then that of the last name. |
| ProfileText.ShowAvatar | screens/Profile.js:90-94 | The picture shows exactly when the avatar URI is present and non-empty. Otherwise the initials show. |
| ProfileText.SpaceBeforeCapitals | screens/Profile.js:132 | `replace(/([A-Z])/g, ' $1')`: a space before each ASCII capital. `SpacedLabelShape` and `JoinWordsUndoesSpacing` state its shape and its inverse. |
| ProfileText.ProfileLabel | screens/Profile.js:131-133 | The switch label of the first profile screen. `ProfileLabelShape` states its shape. |
| ProfileText.SpacedLabelShape | screens/Profile.js:131-132 | The spaced switch label is one character longer per capital, and every capital in it follows a space. |
| ProfileText.SpacedLabelStart | screens/SplashScreen.js:102 | A spaced label never starts with a capital. |
| ProfileText.JoinWordsUndoesSpacing | screens/SplashScreen.js:102 | Removing the spaces before capitals restores the key, so the label determines the key. |
| ProfileText.CapitalizeFirst | screens/Profile.js:133 | `replace(/^./, …)` upper-cases the first character unless it is a line terminator, and keeps the rest and the length. |
| ProfileText.ProfileLabelShape | screens/Profile.js:131-133 | A camelCase key becomes its capitalised first letter followed by the spaced rest. A key that starts with a capital gets a leading space. |
| ProfileText.SetSwitch | screens/Profile.js:137-138 | Setting one switch gives that key the new value and leaves every other switch as it was. |
| ProfileText.SetSwitchShown | screens/SplashScreen.js:105 | Setting a shown switch keeps the set of switches. Setting it back restores the map. |
| ProfileScreen.Loaded | screens/Profile.js:28-35 | A loaded record sets missing or empty strings to `''` and a missing or empty avatar to null. Missing switches become an empty map. |
| ProfileScreen.Snapshot | screens/Profile.js:42-53 | The record saveProfile stores. `SaveLoadRoundTrip` proves that loading it restores the state. |
| ProfileScreen.SaveLoadRoundTrip | screens/Profile.js:25-53 | Saving and then loading restores every field, except that an empty avatar URI comes back as null. The avatar slot then shows the same thing. |
| ProfileScreen.Profile.constructor | screens/Profile.js:10-21 | Initially every text is empty, there is no avatar, and all four switches are off. |
| ProfileScreen.Profile.LoadProfile | screens/Profile.js:25-40 | With a stored record, the state becomes the loaded record. Without one, nothing changes. |
| ProfileScreen.Profile.SaveProfile | screens/Profile.js:42-53 | The stored record holds the six state fields as they are. |
| ProfileScreen.Profile.PickImage | screens/Profile.js:63-74 | The first asset becomes the avatar unless the pick was cancelled or empty. No other field changes. |
| ProfileScreen.Profile.RemoveAvatar | screens/Profile.js:96 | The avatar is cleared, so the initials show. Nothing else changes. |
| ProfileScreen.Profile.SetNotification | screens/Profile.js:137-138 | Only the given switch changes. |
| SplashScreen.Loaded | screens/SplashScreen.js:24-32 | A loaded record sets missing or empty strings to `''` and a missing or empty image to null. Missing switches become the initial all-on map: the effect runs once on mount, so its closure sees the first render's switches. |
| SplashScreen.FromRoute | screens/SplashScreen.js:33-35 | Route parameters set only the first name and the email, each defaulting to `''`. |
| SplashScreen.Snapshot | screens/SplashScreen.js:41-52 | The record saveProfile stores. `SaveLoadRoundTrip` proves that loading it restores the state. |
| SplashScreen.SaveLoadRoundTrip | screens/SplashScreen.js:21-52 | Saving and then loading restores every field, except that an empty image comes back as null and shows the same initials. |
| SplashScreen.Profile.constructor | screens/SplashScreen.js:8-19 | Initially every text is empty, there is no image, and all four switches are on. |
| SplashScreen.Profile.LoadData | screens/SplashScreen.js:21-39 | A stored record sets every field. Otherwise route parameters set the name and email. Without a record or route object, reading `route.params` throws and nothing changes. |
| SplashScreen.Profile.SaveProfile | screens/SplashScreen.js:41-52 | The stored record holds the six state fields as they are. |
| SplashScreen.Profile.PickImage | screens/SplashScreen.js:59-64 | Unless cancelled, the first asset becomes the image. An uncancelled empty result throws and changes nothing. |
| SplashScreen.Profile.RemoveImage | screens/SplashScreen.js:82 | The image is cleared, so the initials show. Nothing else changes. |
| SplashScreen.Profile.SetNotification | screens/SplashScreen.js:105 | Only the given switch changes. |
| App.Truthy | App.js:69 | JavaScript truthiness of the parsed flag: `null`, `false`, zero and `''` are falsy; every other value, including arrays and objects, is truthy. |
| App.ReadsBooleans | App.js:31 | What the model assumes of `JSON.parse`: it reads the texts `JSON.stringify` gives for `true` and `false` back as those booleans. |
| App.FlagAfterCheck | App.js:27-32 | The completion flag after checkOnboardingStatus. `FlagAfterCheckCases` states its cases. |
| App.FlagAfterCheckCases | App.js:24-42 | A present text that parses becomes the completion state, whatever JSON value it denotes. An absent key, a failed read or a text whose parse throws leaves the state as it was. |
| App.StoredFlagSurvivesRestart | App.js:27-51 | The flag stored on finishing is read back as a truthy value on the next start, so Home is shown. A stored `false` or a store without the key leaves it falsy, so Onboarding is shown. |
| App.AppState.constructor | App.js:18-20 | The app starts loading, with the completion flag `false`. |
| App.AppState.CheckOnboardingStatus | App.js:24-42 | Loading ends in every case. The completion flag becomes whatever JSON value the stored text parses to, as `FlagAfterCheck` says. |
| App.AppState.HandleOnboardingFinish | App.js:48-58 | On a successful write, the flag `true` is stored under `@app_onboarding_completed` and completion is set. When the write fails, neither the store nor the state changes. |
| App.AppState.Screens | App.js:61-93 | While loading, only the splash screen shows. Afterwards exactly one of Home or Onboarding is registered (Home exactly when the completion flag is truthy), and Profile always is. |

## Left out

- The key-value store, JSON and the SQLite engine are not modelled as libraries.
  - What they return is a parameter.
  - `JSON.parse` of the onboarding flag is a parameter. The model assumes of it only that it reads `true` and `false` back (`ReadsBooleans`), so any other text may parse to any JSON value or throw.
  - A stored record is given field by field.
  - A value of the wrong JSON type in a stored record is not modelled.
- MenuDatabase.MenuStore.FilterMenuItems: which rows a filter returns is not modelled. It depends on SQL `IN` and `LIKE` evaluation inside the engine.
  - The model states the statement and parameters that are issued.
  - `%` and `_` typed into the search text are passed unescaped and act as wildcards.
- MenuDatabase.MenuStore.GetMenuItems: the order of returned rows is not modelled. SQLite does not guarantee an order without `ORDER BY`, so the contract gives the rows as a multiset.
- Transactions, the engine's asynchronous callbacks and the interleaving of `async` handlers are not modelled. Each handler is one atomic step.
- ProfileText.Initials: a name's first character is taken as one whole character. JavaScript's `s[0]` is a UTF-16 code unit, so for a name that starts outside the Basic Multilingual Plane it is a lone surrogate. Upper-casing is ASCII only (see `JsText.ToUpper`): `é` stays `é` here but becomes `É` in JavaScript, and `ß` becomes `SS`, two characters.
- ProfileText.CapitalizeFirst: the first character is one whole character, while JavaScript's `.` without the `u` flag matches one UTF-16 code unit. Upper-casing is ASCII only, so a key starting with `é` or `ß` is left unchanged here. In JavaScript it becomes `É`, or `SS`, which changes the length.
- JsText.ToUpper: only ASCII letters are upper-cased.
  - Unicode case mapping is not modelled, including expansions such as `ß` to `SS`.
  - So "at most two initials" holds in the model but not for every Unicode name.
- The text-input setters, the phone-number mask, the search debounce (500 ms) and the rendering and styles are not modelled.
  - This includes any CSS text transform on switch labels.
  - Each setter only assigns a field.
- Logout is not modelled: it clears the whole store and resets navigation to Onboarding (`screens/Profile.js:55-61`, `screens/SplashScreen.js:54-57`). Navigation is outside the model.
- The `Alert` and `alert` success messages after saving are not modelled.
- The `console.error` logging in `App.js` is not modelled.
- Home's fetch on mount (`createTable` then `getMenuItems`) is modelled only through the store's methods. The model does not sequence the screen's effects.
