# NTUMAP campus map — a verified model of its screen logic

NTUMAP is an Android campus-map app for NTU's Clifton campus. This project models in Dafny what its five
screens compute once the Android UI and Google Maps rendering are set aside, and proves properties of that model:

- **Main map screen** (`campus_map.dfy`, module `CampusMap`):
  - the room occupancy table;
  - the search bar, which focuses the first marker whose room name contains the query (case-insensitively) or else lists the matching rooms of the table;
  - the AI button's guard;
  - the room-type filter dialog, whose checkboxes live in a `bool` array updated in place;
  - `applyFilters`.
- **Emergency screen** (`emergency.dfy`, module `Emergency`):
  - the alert list;
  - the scan that finds the first alert of the highest priority;
  - the status banner's text and colour;
  - the list-row colours and row text.
- **Room booking screen** (`room_booking.dfy`, module `RoomBooking`):
  - `Room` objects whose occupancy is updated in place;
  - the availability rule that decides whether a booking is offered;
  - the booking itself;
  - the row text and colour.
- **Navigation screen** (`navigation.dfy`, module `Navigation`):
  - the destination alias table, a switch on the lower-cased name;
  - the two-point route;
  - the 15-minutes-per-kilometre estimate;
  - the guard on drawing the route.
- **Accessibility screen** (`accessibility.dfy`, module `Accessibility`):
  - five switches and a text size stored in a key/value preference store with defaults;
  - `12 + progress`;
  - reset;
  - the "Applied settings" summary;
  - the static getters.

`common.dfy` holds the shared pieces:
- an `Option` type;
- ASCII `toLowerCase`;
- `String.contains`;
- decimal rendering of integers;
- the `Color` values the screens use.

## Modelling choices

- **Classes for in-place state.** Each screen whose fields change is a class:
  - `CampusMap.MainScreen`;
  - `Emergency.EmergencyScreen`;
  - `RoomBooking.Room` and `RoomBooking.RoomBookingScreen`;
  - `Navigation.NavigationScreen`;
  - `Accessibility.AccessibilityScreen`.

  Their methods name what they modify, and are specified by functions on values (`Snapshot`, `Snapshots`, `Shown`, `Decode`, `Encode`, `SummaryText`, `HighestIndex`, `MatchingNames`, `VisibleRooms`, `FirstMatch`).
- **HashMap order is a parameter.** The main screen walks two `HashMap`s, whose iteration order Java leaves unspecified, so each walk's order is a parameter:
  - `markerOrder` is the sequence of room names met while walking the marker map. A name may repeat, because every search re-adds the five markers while the old ones stay in the map.
  - `keyOrder` lists the occupancy table's keys, once each.

  "First match" always means first in that order.
- **Fixed-point coordinates.** Coordinates are fixed point in units of 10⁻⁴ degree, and distances are whole metres. The distance `Location.distanceBetween` reports is a parameter.
- **Preferences as a typed map.** The preference store is a `map<string, Value>`. `SharedPreferences` throws when a key holds a value of the other type, so the operations require a well-typed store (`WellTyped`).
- **Seek-bar range.** The seek bar pins its progress to `0..12`. The layout file that fixes the maximum is not part of this model; 12 follows the range "12 to 24" stated at `AccessibilityActivity.java:108`.

## Model

| member | source | states |
|---|---|---|
| Text.Lower | app/src/main/java/com/example/ntumap/MainActivity.java:314 | toLowerCase keeps the length, maps each character by ASCII case folding, and leaves no upper-case letter |
| Text.LowerIdempotent | app/src/main/java/com/example/ntumap/NavigationActivity.java:163 | lower-casing an already lower-cased name changes nothing |
| Text.Contains | app/src/main/java/com/example/ntumap/MainActivity.java:314 | String.contains is true exactly when the part occurs at some index of the text (the empty part occurs everywhere) |
| Text.DecimalRoundTrip | app/src/main/java/com/example/ntumap/RoomBookingActivity.java:200 | the %d rendering of a natural number reads back as that number |
| Text.IntToStringInjective | app/src/main/java/com/example/ntumap/RoomBookingActivity.java:200 | different integers are rendered as different decimal strings |
| CampusMap.SeededOccupancyIsSound | app/src/main/java/com/example/ntumap/MainActivity.java:169-174 | the six seeded rooms are keyed by their own names, have a positive capacity and 0 <= current <= max |
| CampusMap.MainScreen.constructor | app/src/main/java/com/example/ntumap/MainActivity.java:164-174 | after the six puts the table equals the seeded table, and no map is ready yet |
| CampusMap.MainScreen.OnMapReady | app/src/main/java/com/example/ntumap/MainActivity.java:189-222 | after this the map exists, so searches and filters act on it |
| CampusMap.MainScreen.Occupancy | app/src/main/java/com/example/ntumap/MainActivity.java:417 | HashMap.get: a record exactly for the names in the table, and then the table's record |
| CampusMap.Matches | app/src/main/java/com/example/ntumap/MainActivity.java:314 | the search rule (lower-cased name contains lower-cased query) lets the empty query match every name |
| CampusMap.OnAIButton | app/src/main/java/com/example/ntumap/MainActivity.java:139-147 | the "Please enter a destination" prompt exactly for an empty query; otherwise navigation to the query itself, flagged as an AI route |
| CampusMap.MainScreen.OnSearchAction | app/src/main/java/com/example/ntumap/MainActivity.java:155-161 | the editor action does nothing exactly when the query is empty; for any other query its outcome is one searchLocation may give (SearchResult: the toast without a map, else the first matching marker, else the suggestions) |
| CampusMap.FirstMatch | app/src/main/java/com/example/ntumap/MainActivity.java:310-327 | the index found matches and no earlier name matches; there is no index exactly when no name of the walk matches |
| CampusMap.MainScreen.SearchLocation | app/src/main/java/com/example/ntumap/MainActivity.java:297-332 | SearchResult: with no map, only the "Searching" toast. Otherwise the first matching marker in walk order is focused, with that room's table entry if it has one, and the search stops there. Only when no marker matches does it fall back to the suggestions outcome |
| CampusMap.MatchingNamesMembers | app/src/main/java/com/example/ntumap/MainActivity.java:337-341 | the suggestion walk keeps exactly the walked names that match the query |
| CampusMap.MatchingNamesDistinct | app/src/main/java/com/example/ntumap/MainActivity.java:337-341 | walking distinct keys yields distinct suggestions |
| CampusMap.SuggestionsAreTheMatches | app/src/main/java/com/example/ntumap/MainActivity.java:334-357 | the suggestions are exactly the table's matching names, each once, and the list is empty exactly when no name in the table matches |
| CampusMap.MainScreen.ShowSearchSuggestions | app/src/main/java/com/example/ntumap/MainActivity.java:334-357 | the loop builds the matches in key order; "No locations found" exactly when no table name matches, otherwise the "Search Results" list of exactly the matching names, without repeats |
| CampusMap.MatchingNamesAppend | app/src/main/java/com/example/ntumap/MainActivity.java:337-341 | one more key walked adds that key at the end exactly when it matches |
| CampusMap.NewFilterSelection | app/src/main/java/com/example/ntumap/MainActivity.java:382-383 | the dialog opens with only "All" checked, which is an exclusive state |
| CampusMap.Toggled | app/src/main/java/com/example/ntumap/MainActivity.java:389-399 | checking "All" clears every specific type; unchecking "All" changes only "All"; touching a specific type, on or off, records it and clears "All" and leaves the other types alone |
| CampusMap.ToggleKeepsExclusive | app/src/main/java/com/example/ntumap/MainActivity.java:389-399 | from any state, a tap leaves "All" checked only with no specific type checked |
| CampusMap.OnFilterItemToggled | app/src/main/java/com/example/ntumap/MainActivity.java:387-399 | the in-place array update, including the clearing loop, leaves exactly the state Toggled describes |
| CampusMap.ShouldShow | app/src/main/java/com/example/ntumap/MainActivity.java:420-431 | the shouldShow loop answers true exactly when "All" is checked or some checked label equals the room's type |
| CampusMap.VisibleRooms | app/src/main/java/com/example/ntumap/MainActivity.java:414-442 | a walked name is shown exactly when it has an occupancy entry and is visible under the checked labels |
| CampusMap.MainScreen.ApplyFilters | app/src/main/java/com/example/ntumap/MainActivity.java:408-450 | corrected walk (over a copy of the marker walk): nothing without a map; otherwise exactly the rooms with an entry that are visible, in walk order |
| CampusMap.VisibleRoomsAppend | app/src/main/java/com/example/ntumap/MainActivity.java:414-442 | one more walked marker adds its name at the end exactly when it is shown |
| CampusMap.StudyRoomFilterShowsNothing | app/src/main/java/com/example/ntumap/MainActivity.java:234 | filtering on "Study Room" alone shows no room, because the only Study Room has no marker |
| CampusMap.FilterRunAsWritten | app/src/main/java/com/example/ntumap/MainActivity.java:414-442 | as written, a pass re-adds at most one marker, and a pass that throws has re-added exactly one |
| CampusMap.FilterRunAsWrittenShowsFirstVisible | app/src/main/java/com/example/ntumap/MainActivity.java:414-442 | as written, a pass re-adds exactly the first room the corrected pass shows, or nothing when the corrected pass shows nothing |
| CampusMap.FilterRunAsWrittenCrashesOnTwoVisible | app/src/main/java/com/example/ntumap/MainActivity.java:414-442 | as written, a pass throws whenever two different rooms of the walk pass the filter |
| CampusMap.FilterAllAsWrittenCrashesOnEveryWalk | app/src/main/java/com/example/ntumap/MainActivity.java:414-442 | as written, with "All" checked on the seeded table, the pass throws whatever order the marker map is walked in |
| CampusMap.FilterAllAsWrittenCrashes | app/src/main/java/com/example/ntumap/MainActivity.java:414-442 | as written, with "All" checked and the markers walked in the order addRoomMarkers added them (Main Building first), the pass throws after showing "Library", although four rooms are visible; for every other walk see FilterAllAsWrittenCrashesOnEveryWalk |
| Emergency.PriorityLevel | app/src/main/java/com/example/ntumap/EmergencyActivity.java:159-166 | Low ranks 1, Medium 2, High 3 (each iff), and any other string 0 |
| Emergency.HighestIndex | app/src/main/java/com/example/ntumap/EmergencyActivity.java:149-157 | the scan's choice is an alert of maximal level, and every earlier alert has a strictly lower level |
| Emergency.FirstMaximumIsUnique | app/src/main/java/com/example/ntumap/EmergencyActivity.java:152 | any position that is a maximum with only lower levels before it is the scan's choice: the strict > picks the earliest maximum |
| Emergency.GetHighestPriorityAlert | app/src/main/java/com/example/ntumap/EmergencyActivity.java:149-157 | the loop over a non-empty list returns the first alert of the highest level |
| Emergency.StatusText | app/src/main/java/com/example/ntumap/EmergencyActivity.java:127-147 | "No Active Emergencies" exactly for an empty list; otherwise "Active Emergency: " followed by the title of an alert of the highest level |
| Emergency.BannerColor | app/src/main/java/com/example/ntumap/EmergencyActivity.java:135-145 | an unknown priority leaves the banner colour as it was; a known one always sets a colour, never the "no emergency" green |
| Emergency.StatusColor | app/src/main/java/com/example/ntumap/EmergencyActivity.java:127-147 | green for an empty list; otherwise the winner's colour, which is never green for a known priority and is the old colour for an unknown one |
| Emergency.EmergencyScreen.UpdateEmergencyStatus | app/src/main/java/com/example/ntumap/EmergencyActivity.java:127-147 | green "No Active Emergencies" for an empty list, without running the scan; otherwise "Active Emergency: " plus the winner's title, with yellow, orange or red for Low, Medium or High, and the colour unchanged for another priority |
| Emergency.EmergencyScreen.constructor | app/src/main/java/com/example/ntumap/EmergencyActivity.java:111-125 | the three seeded alerts in order; the banner names "Weather Warning" on red |
| Emergency.RowTextColor | app/src/main/java/com/example/ntumap/EmergencyActivity.java:298-309 | an unknown priority leaves the row's text colour as it was; a known one always sets a colour |
| Emergency.RowAndBannerDifferOnlyForLow | app/src/main/java/com/example/ntumap/EmergencyActivity.java:298-309 | a list row and the banner colour an alert alike exactly when its priority is not Low |
| Emergency.BannerColorTracksLevel | app/src/main/java/com/example/ntumap/EmergencyActivity.java:135-145 | for known priorities, the banner is never the "no emergency" green, and two lists get the same colour exactly when their winners have the same level |
| Emergency.AlertLabel | app/src/main/java/com/example/ntumap/EmergencyActivity.java:276-278 | "title (priority) - timeAgo" is the three fields plus six characters of punctuation; AlertLabelDeterminesAlert shows the fields can be read back |
| Emergency.LabelTitle | app/src/main/java/com/example/ntumap/EmergencyActivity.java:277 | equal rows have equal titles when titles hold no '(' |
| Emergency.LabelPriority | app/src/main/java/com/example/ntumap/EmergencyActivity.java:277 | equal rows with equal titles have equal priorities when priorities hold no ')' |
| Emergency.AlertLabelDeterminesAlert | app/src/main/java/com/example/ntumap/EmergencyActivity.java:276-278 | "title (priority) - timeAgo" determines title, priority and age |
| RoomBooking.RoomData.IsAvailable | app/src/main/java/com/example/ntumap/RoomBookingActivity.java:194-196 | a room is available exactly when one more occupant still fits within its capacity; for a sound room, exactly when one booking keeps it sound |
| RoomBooking.Booked | app/src/main/java/com/example/ntumap/RoomBookingActivity.java:152 | a completed booking adds exactly one occupant and changes no other field |
| RoomBooking.SelectionsKeepCapacity | app/src/main/java/com/example/ntumap/RoomBookingActivity.java:111-116 | after any sequence of selections and answers, a room within capacity stays within capacity; its occupancy has grown by the number of accepted bookings; nothing else changed |
| RoomBooking.RowTextColor | app/src/main/java/com/example/ntumap/RoomBookingActivity.java:222-226 | green exactly when the room is available, red exactly when it is full |
| RoomBooking.AvailabilityVerdict | app/src/main/java/com/example/ntumap/RoomBookingActivity.java:111-116 | "Available for booking!" exactly when current < max, "Room is currently full." otherwise |
| RoomBooking.IntToStringHasNoSlash | app/src/main/java/com/example/ntumap/RoomBookingActivity.java:200 | a rendered number never contains the '/' that separates current and max |
| RoomBooking.RoomLabel | app/src/main/java/com/example/ntumap/RoomBookingActivity.java:198-201 | "name (current/max) - type" is the name, both numbers and the type plus seven characters of punctuation; RoomLabelShowsOccupancy shows the occupancy can be read off it |
| RoomBooking.RoomLabelShowsOccupancy | app/src/main/java/com/example/ntumap/RoomBookingActivity.java:199-201 | "name (current/max) - type" changes whenever the occupancy does, so a booking shows in the list |
| RoomBooking.RoomDetails | app/src/main/java/com/example/ntumap/RoomBookingActivity.java:102-119 | the details toast is non-empty and ends in '!' exactly when the room is available, i.e. exactly when the booking dialog is offered |
| RoomBooking.SeededRoomsAreSound | app/src/main/java/com/example/ntumap/RoomBookingActivity.java:73-78 | six seeded rooms, all with 0 <= current <= max, and "Presentation Room E" starts empty |
| RoomBooking.Room.constructor | app/src/main/java/com/example/ntumap/RoomBookingActivity.java:170-177 | a room holds exactly the six values it was built with |
| RoomBooking.Room.SetCurrentOccupancy | app/src/main/java/com/example/ntumap/RoomBookingActivity.java:188 | the setter changes the occupancy and nothing else |
| RoomBooking.Snapshots | app/src/main/java/com/example/ntumap/RoomBookingActivity.java:69-78 | the values of a room list, position by position |
| RoomBooking.RoomBookingScreen.constructor | app/src/main/java/com/example/ntumap/RoomBookingActivity.java:68-78 | six fresh, distinct rooms holding the seeded values in order |
| RoomBooking.RoomBookingScreen.BookRoom | app/src/main/java/com/example/ntumap/RoomBookingActivity.java:133-159 | occupancy + 1 and nothing else; a room that was available is within capacity afterwards |
| RoomBooking.RoomBookingScreen.ShowRoomDetails | app/src/main/java/com/example/ntumap/RoomBookingActivity.java:102-119 | the StringBuilder appends produce RoomDetails of the room's current value |
| RoomBooking.RoomBookingScreen.OnRoomClicked | app/src/main/java/com/example/ntumap/RoomBookingActivity.java:62-65 | the details text as built; a booking happens exactly when the room was available and the user confirmed; only the clicked room changes, as AfterSelection says |
| Navigation.DestinationCoordinates | app/src/main/java/com/example/ntumap/NavigationActivity.java:160-179 | each place answers to its lower-cased aliases and only to them; every other name gives a point equal to NTU_CLIFTON |
| Navigation.DestinationIgnoresCase | app/src/main/java/com/example/ntumap/NavigationActivity.java:163 | a name and its lower-cased form resolve to the same point |
| Navigation.SameLettersSamePoint | app/src/main/java/com/example/ntumap/NavigationActivity.java:163 | names that differ only in letter case resolve to the same point |
| Navigation.LibraryInAnyCase | app/src/main/java/com/example/ntumap/NavigationActivity.java:163-165 | "Library" and "LIBRARY" both resolve to the library, which is not the start point |
| Navigation.CanteenIsCafeteria | app/src/main/java/com/example/ntumap/NavigationActivity.java:166-168 | "canteen" resolves where "cafeteria" does |
| Navigation.FitnessIsGym | app/src/main/java/com/example/ntumap/NavigationActivity.java:169-171 | "fitness" resolves where "gym" does |
| Navigation.LabIsComputerLab | app/src/main/java/com/example/ntumap/NavigationActivity.java:172-174 | "lab" resolves where "computer lab" does |
| Navigation.RouteMinutes | app/src/main/java/com/example/ntumap/NavigationActivity.java:134 | the estimate is distance/1000 x 15 truncated: m x 1000 <= 15d < (m+1) x 1000, never negative, and 0 exactly when 15d < 1000 |
| Navigation.RouteMinutesMonotone | app/src/main/java/com/example/ntumap/NavigationActivity.java:134 | a longer distance never gives fewer minutes |
| Navigation.NavigationScreen.constructor | app/src/main/java/com/example/ntumap/NavigationActivity.java:49-67 | the intent's destination and flag; a route for a present destination and none for a missing one; nothing drawn while the map is still being prepared |
| Navigation.NavigationScreen.CalculateRoute | app/src/main/java/com/example/ntumap/NavigationActivity.java:122-145 | nothing at all without a destination; otherwise the route is exactly [NTU_CLIFTON, destination point] (drawable), plus the truncated estimate, drawn when the map is ready |
| Navigation.NavigationScreen.DrawRoute | app/src/main/java/com/example/ntumap/NavigationActivity.java:147-158 | a polyline is added exactly when the route exists and has at least two points |
| Navigation.NavigationScreen.OnMapReady | app/src/main/java/com/example/ntumap/NavigationActivity.java:95-108 | the map is ready, and a present destination is resolved again for its marker |
| Accessibility.Decode | app/src/main/java/com/example/ntumap/AccessibilityActivity.java:161-166 | each switch reads as on exactly when its key is stored as true, so a missing key reads as off; the size is the stored one, or 16 when missing |
| Accessibility.Encode | app/src/main/java/com/example/ntumap/AccessibilityActivity.java:127-136 | the six puts leave a well-typed store that reads back exactly the settings written, and other keys are untouched |
| Accessibility.EmptyStoreIsDefaults | app/src/main/java/com/example/ntumap/AccessibilityActivity.java:96-102 | missing keys read as every switch off and 16sp |
| Accessibility.EncodeIdempotent | app/src/main/java/com/example/ntumap/AccessibilityActivity.java:125-138 | saving the same settings twice leaves the same store as saving once |
| Accessibility.SeekBarProgress | app/src/main/java/com/example/ntumap/AccessibilityActivity.java:103 | the seek bar holds its progress inside 0..12, pinning values outside to the nearer end |
| Accessibility.Loaded | app/src/main/java/com/example/ntumap/AccessibilityActivity.java:94-105 | the screen shows the stored switches and a size in 12..24 |
| Accessibility.LoadThenSaveKeepsSettings | app/src/main/java/com/example/ntumap/AccessibilityActivity.java:102-103 | opening then saving keeps the settings the store reads as (missing keys are written out with their defaults) when the stored size is 12..24 or missing |
| Accessibility.SaveThenLoadShowsSame | app/src/main/java/com/example/ntumap/AccessibilityActivity.java:135-136 | settings saved from the screen are what it shows when opened again |
| Accessibility.IsVoiceGuidanceEnabled | app/src/main/java/com/example/ntumap/AccessibilityActivity.java:187-189 | agrees with the loaded voice-guidance switch, false when missing |
| Accessibility.IsHighContrastEnabled | app/src/main/java/com/example/ntumap/AccessibilityActivity.java:191-193 | agrees with the loaded high-contrast switch, false when missing |
| Accessibility.IsScreenReaderEnabled | app/src/main/java/com/example/ntumap/AccessibilityActivity.java:195-197 | agrees with the loaded screen-reader switch, false when missing |
| Accessibility.IsLargeTextEnabled | app/src/main/java/com/example/ntumap/AccessibilityActivity.java:199-201 | agrees with the loaded large-text switch, false when missing |
| Accessibility.IsVibrationFeedbackEnabled | app/src/main/java/com/example/ntumap/AccessibilityActivity.java:203-205 | agrees with the loaded vibration switch, false when missing |
| Accessibility.GetTextSize | app/src/main/java/com/example/ntumap/AccessibilityActivity.java:207-209 | agrees with the loaded text size, 16 when missing |
| Accessibility.SummaryText | app/src/main/java/com/example/ntumap/AccessibilityActivity.java:175-181 | the summary starts with the "Applied settings:" header; SummaryDeterminesSettings shows the settings can be read back from it |
| Accessibility.EnabledLinesInjective | app/src/main/java/com/example/ntumap/AccessibilityActivity.java:175-181 | the switch lines and the size line can be read back: the same text means the same switches and the same last line |
| Accessibility.TextSizeLineInjective | app/src/main/java/com/example/ntumap/AccessibilityActivity.java:181 | different sizes give different "Text size: Nsp" lines |
| Accessibility.SummaryDeterminesSettings | app/src/main/java/com/example/ntumap/AccessibilityActivity.java:175-183 | the summary, which lists the enabled switches in fixed order and ends with the size, never shows two different settings alike |
| Accessibility.AccessibilityScreen.ApplyAccessibilitySettings | app/src/main/java/com/example/ntumap/AccessibilityActivity.java:159-184 | the StringBuilder appends produce the summary of the stored settings |
| Accessibility.AccessibilityScreen.constructor | app/src/main/java/com/example/ntumap/AccessibilityActivity.java:28-39 | the screen opens on the store and shows its settings as loaded |
| Accessibility.AccessibilityScreen.LoadCurrentSettings | app/src/main/java/com/example/ntumap/AccessibilityActivity.java:94-105 | the switches come from the store (false when missing); the seek bar is at stored size - 12, pinned; the preview is at the stored size itself |
| Accessibility.AccessibilityScreen.UpdateTextSizePreview | app/src/main/java/com/example/ntumap/AccessibilityActivity.java:107-111 | the preview size is 12 + progress |
| Accessibility.AccessibilityScreen.OnProgressChanged | app/src/main/java/com/example/ntumap/AccessibilityActivity.java:58-62 | dragging the seek bar moves the preview to the shown size |
| Accessibility.AccessibilityScreen.SetSwitch | app/src/main/java/com/example/ntumap/AccessibilityActivity.java:15-19 | setting one switch changes that switch only |
| Accessibility.AccessibilityScreen.SaveSettings | app/src/main/java/com/example/ntumap/AccessibilityActivity.java:125-144 | the store receives the shown settings with text_size = 12 + progress; reopening shows the same; the summary reports them |
| Accessibility.AccessibilityScreen.ResetToDefaults | app/src/main/java/com/example/ntumap/AccessibilityActivity.java:146-157 | all switches off and progress 4, i.e. 16sp: exactly the defaults an empty store loads; the store is untouched |

## Left out

- **Android UI:**
  - view lookup, click listeners, toasts, dialogs, `setTextSize` and `setBackgroundColor`;
  - the high-contrast background switch (`AccessibilityActivity.java:78-85`, `113-123`);
  - window insets, onboarding and permissions.
- **Google Maps rendering:**
  - markers and their titles, info windows and camera moves;
  - `mMap.clear()` and polylines other than the drawn routes;
  - the marker-to-room side map itself. Only the names met while walking it are modelled (`markerOrder`).
- **Not modelled in place:**
  - `updateOccupancyDisplay` (`MainActivity.java:452-459`), whose body does nothing;
  - the re-search started by picking a suggestion (`MainActivity.java:346-350`);
  - the "Room Details" dialog of the main screen, with its Navigate and Close buttons (`MainActivity.java:248-269`);
  - the marker-tap listener.
- **Foreign and floating-point code:**
  - `Location.distanceBetween` (`NavigationActivity.java:181-186`) is a foreign call returning a float. The distance is a whole number of metres given as a parameter, and the model does not check that it agrees with the two points.
  - `getOccupancyPercentage` and the `%.1f` distance text are floating point.
- Navigation.RouteMinutes: the source divides a `double` and casts to `int`. The model computes `15 x d / 1000` exactly on whole metres, so float rounding and the cast's saturation on huge distances are not modelled.
- **Background threads.** The booking and the AI search each run on a background thread that sleeps before acting. Each is modelled as a single synchronous step. So the model does not capture two booking dialogs offered before either booking completes: together they can push a room past its capacity.
- **Persistence.** `SharedPreferences` persistence and `apply()`'s asynchronous write are replaced by an in-memory map.
- **Case folding.** Java's full-Unicode `toLowerCase` is modelled as ASCII case folding. `toLowerCase()` also uses the default locale: in Turkish and Azeri locales 'I' lower-cases to 'ı' (dotless i), so even on ASCII input the app then misses "I"-containing names and aliases that `Text.Lower`, `CampusMap.Matches`, `Navigation.DestinationCoordinates`, `Navigation.LibraryInAnyCase` and `Navigation.SameLettersSamePoint` accept; the model does not capture this.
- **AI route optimisation.** `optimizeRouteWithAI` (`NavigationActivity.java:212-231`) is never called and only shows toasts after a delay; it is dead code and is not modelled.
- **Integer width.** Occupancy is an unbounded integer. After the `current < max` guard, one increment cannot overflow a Java `int`.
- **Where the code and the app's intended behaviour differ, the model follows the code** (the one exception is `CampusMap.MainScreen.ApplyFilters`, which models the corrected walk; the code as written is `CampusMap.FilterRunAsWritten`, see "## Findings"):
  - Filtering on "Study Room" shows nothing, because "Room B" has no marker.
  - The minutes are truncated, not rounded.
  - A booking has no rejection path and no release.
- CampusMap.MainScreen.OnMapReady: the campus marker, the five room markers and the marker-to-room entries it adds are not modelled; the marker walk that search and filtering take is a parameter, not tied to this method.
- RoomBooking.RoomLabel: `String.format("%d")` uses the default locale, which in some locales (Arabic ones, for instance) prints non-ASCII digits; `Text.IntToString` always prints ASCII digits.

## Findings

| source | as written | input that shows it | evidently intended | confidence | as-written member | corrected member |
|---|---|---|---|---|---|---|
| app/src/main/java/com/example/ntumap/MainActivity.java:414-442 | applyFilters puts each re-added marker into `markerToRoomMap` while iterating that same HashMap's entry set, so the iterator's next step throws ConcurrentModificationException | "All" checked on the seeded table, with markers walked Main Building, Library, Computer Lab, Cafeteria, Gym: the pass throws right after re-adding Library | every marker that passes the filter is re-added, in walk order | not executed | CampusMap.FilterAllAsWrittenCrashes | CampusMap.MainScreen.ApplyFilters |
