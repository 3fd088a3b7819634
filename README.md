# DanceConnect client state, modelled in Dafny

DanceConnect is a mobile-styled web application that puts dance students in
touch with teachers. This project models its client-side state layer and the
pure logic the pages build on it:

- the shared store (`DataContext`): teachers with their courses, bookings and
  favourite teacher ids, and the operations `addCourse` (upsert by id),
  `deleteCourse`, `addBooking` (prepend with defaults), `toggleFavorite`,
  `getTeacherById` and `setCurrentUser`;
- the student search with its category filter and count line (`StudentHome`);
- the favourites page (`Favorites`) and the bookings tabs (`MyBookings`);
- the teacher dashboard statistics (`TeacherHome`), which parse prices by
  deleting every non-digit;
- the course editor (`TeacherCourses`) and the three-step signup wizard
  (`Signup`).

The store, the course editor, the signup wizard and the bookings tab are
classes whose fields the methods replace, as the React state setters do. The
selectors are functions over sequences. JavaScript's `filter`, `reduce`,
`includes`-then-toggle, `toLowerCase`, `String.prototype.includes`,
`replace(/[^0-9]/g, '')` and `parseInt` are written out once, in `Lists` and
`Text`, and the pages use them.

The provider in `src/context/DataContext.jsx` keeps its three lists in memory
and saves them to the browser's storage. `src/pages/Checkout.jsx:18` asks the
provider for `bookSlot`, which the provider at
`src/context/DataContext.jsx:100-111` does not supply; slots, chats and
realtime updates are not implemented in these files.

Files: `wrappers.dfy` (Option, Result), `lists.dfy`, `text.dfy`,
`data_context.dfy`, `student_home.dfy`, `favorites.dfy`, `my_bookings.dfy`,
`teacher_home.dfy`, `teacher_courses.dfy`, `signup.dfy`.

## Model

| member | source | states |
|---|---|---|
| `Lists.Filter` | src/pages/StudentHome.jsx:15 | `filter`: never longer than the input; an element is kept exactly when it is in the input and satisfies the test; every kept element satisfies it |
| `Lists.FilterMultiplicity` | src/pages/StudentHome.jsx:15 | `filter` keeps every copy of a passing element and no copy of a failing one |
| `Lists.Toggle` | src/context/DataContext.jsx:86-93 | a present id loses every copy (the list gets shorter); an absent id is appended; every other value keeps its membership |
| `Lists.ToggleTwiceAbsent` | src/context/DataContext.jsx:87-92 | toggling an absent id twice gives back exactly the original list |
| `Lists.ToggleTwicePresent` | src/context/DataContext.jsx:87-92 | toggling a present id twice restores membership, with the id's copies replaced by one copy at the end |
| `Lists.FoldAdd` | src/pages/TeacherHome.jsx:18-21 | the `reduce` fold never drops below its start when every added value is non-negative; its sum form is `Lists.FoldAddIsSum` |
| `Lists.FoldAddIsSum` | src/pages/TeacherHome.jsx:18-21 | the `reduce` fold equals its start value plus the sum of the added values |
| `Text.Lower` | src/pages/StudentHome.jsx:16-17 | `toLowerCase` keeps the length, lowers each character, and leaves no ASCII capital |
| `Text.LowerChar` | src/pages/StudentHome.jsx:16-17 | `toLowerCase` on a character moves A-Z up by 32, leaves non-letters alone, and never yields an ASCII capital |
| `Text.LowerIdempotent` | src/pages/StudentHome.jsx:16-17 | lowering twice is lowering once |
| `Text.Contains` | src/pages/StudentHome.jsx:16-18 | `includes` never finds a needle longer than the text (its meaning is `Text.ContainsIff`) |
| `Text.ContainsIff` | src/pages/StudentHome.jsx:16-18 | `includes` is true exactly when the needle occurs at some position |
| `Text.ContainsEmpty` | src/pages/StudentHome.jsx:16-17 | every text includes the empty search text |
| `Text.KeepDigits` | src/pages/TeacherHome.jsx:19 | the result holds only digits, every copy of every digit of the input, in their original order |
| `Text.ParseInt` | src/context/DataContext.jsx:96 | `parseInt` is `NaN` for blank text and for text whose first non-blank character is not a digit or a sign; a negative result needs a leading `-` |
| `Text.ParseIntOfDigits` | src/pages/TeacherHome.jsx:19 | `parseInt` of a digit string is its decimal value, and `NaN` for the empty string |
| `Text.ParseIntLeadingDigits` | src/pages/TeacherHome.jsx:19 | `parseInt` reads a digit string, followed by text that does not extend it, as its decimal value |
| `Text.IntToString` | src/pages/TeacherHome.jsx:24-26 | the `${…}` text of a number is non-empty and starts with `-` or a digit; that `parseInt` reads it back is `Text.ParseIntRoundTrip` |
| `Text.ParseIntRoundTrip` | src/context/DataContext.jsx:96 | `parseInt(String(n))` is `n` for every integer written in plain decimal digits |
| `Text.NatToString` | src/pages/TeacherHome.jsx:24-25 | the decimal text of a number is non-empty, all digits, denotes the number, and starts with `0` only for zero itself |
| `DataContext.FindCourseIndex` | src/context/DataContext.jsx:55 | `findIndex`: the first position with the id, or -1 exactly when no course has it |
| `DataContext.Upserted` | src/context/DataContext.jsx:53-60 | the upserted list holds the course, only old courses besides it, every old course with another id; it keeps its length exactly when some course has the id, and grows by one otherwise |
| `DataContext.UpsertReplacesFirst` | src/context/DataContext.jsx:55-57 | with an existing id, the first such course is replaced in place and the count is unchanged |
| `DataContext.UpsertAppends` | src/context/DataContext.jsx:58-60 | with a new id, the course is appended at the end |
| `DataContext.UpsertIdempotent` | src/context/DataContext.jsx:55-60 | upserting the same course twice equals upserting it once |
| `DataContext.UpsertCourse` | src/context/DataContext.jsx:53-60 | copying the list into an array and assigning or pushing in place yields the upserted list |
| `DataContext.AddCourseTo` | src/context/DataContext.jsx:51-64 | same length and ids, every target holds the course, every other teacher unchanged (the exact target is `DataContext.AddCourseFrame`) |
| `DataContext.AddCourseFrame` | src/context/DataContext.jsx:51-64 | `addCourse` keeps the list length, the order and every other teacher; a target changes only in `courses` |
| `DataContext.AddCourseToTeacherWithoutCourses` | src/context/DataContext.jsx:53 | a target without a `courses` field ends with exactly `[course]` |
| `DataContext.AddCourseIdempotent` | src/context/DataContext.jsx:50-65 | applying `addCourse` twice with the same course equals applying it once |
| `DataContext.DeleteCourseFrom` | src/context/DataContext.jsx:67-74 | the call fails exactly when a targeted teacher has no `courses` field |
| `DataContext.DeleteCourseEffect` | src/context/DataContext.jsx:68-73 | on success, others are untouched; a target keeps, in order, every course with another id and none with the deleted id |
| `DataContext.NewBooking` | src/context/DataContext.jsx:77-82 | id, status and label default to the clock value, `'upcoming'` and `'Payé'`, and fields the request supplies override them; teacher id, teacher, date, time and price are copied |
| `DataContext.FindTeacher` | src/context/DataContext.jsx:96 | `find`: the first teacher with the id, or nothing exactly when none has it |
| `DataContext.TeacherById` | src/context/DataContext.jsx:95-97 | text that `parseInt` reads as `NaN` finds nobody; any other text finds the first teacher whose id is the parsed number, or nobody when none has it |
| `DataContext.TeacherByNumber` | src/context/DataContext.jsx:95-97 | looking up a number finds the first teacher with that id |
| `DataContext.Store.constructor` | src/context/DataContext.jsx:12-34 | the store starts from the given lists and the simulated student user |
| `DataContext.Store.AddCourse` | src/context/DataContext.jsx:50-65 | the teachers become the upserted list; bookings, favourites and user are unchanged |
| `DataContext.Store.DeleteCourse` | src/context/DataContext.jsx:67-74 | the teachers become the filtered list, or stay as they were when the error is thrown |
| `DataContext.Store.AddBooking` | src/context/DataContext.jsx:76-84 | the new booking is first and the old list follows unchanged |
| `DataContext.Store.ToggleFavorite` | src/context/DataContext.jsx:86-93 | the favourites become the toggled list; nothing else changes |
| `DataContext.Store.GetTeacherById` | src/context/DataContext.jsx:95-97 | the result is a stored teacher whose id is the parsed argument, the first such one |
| `DataContext.Store.SetCurrentUser` | src/context/DataContext.jsx:110 | only the current user changes |
| `StudentHome.MatchesSearch` | src/pages/StudentHome.jsx:16-17 | an empty search matches every teacher |
| `StudentHome.MatchesCategory` | src/pages/StudentHome.jsx:18 | "Tous" matches every teacher, and so does a category equal to the teacher's style or one of its styles |
| `StudentHome.FilteredTeachers` | src/pages/StudentHome.jsx:14-21 | a teacher is kept exactly when it matches both the search and the category, with all its copies, in the original order |
| `StudentHome.EmptySearchListsAll` | src/pages/StudentHome.jsx:16-18 | an empty query under "Tous" lists every teacher |
| `StudentHome.SearchIgnoresCase` | src/pages/StudentHome.jsx:16-17 | queries that lower to the same text give the same result |
| `StudentHome.CategoryIsCaseSensitive` | src/pages/StudentHome.jsx:18 | a "Ballet" teacher matches the search "ballet" but not the category "ballet" |
| `StudentHome.ResultNoun` | src/pages/StudentHome.jsx:69 | the noun is plural exactly for more than one teacher |
| `StudentHome.CountLine` | src/pages/StudentHome.jsx:69 | the line reads back as the count, and the plural noun follows exactly when the count exceeds one |
| `StudentHome.ResultLine` | src/pages/StudentHome.jsx:69 | the line above the results reads back as the number of teachers shown, which never exceeds the teachers |
| `Favorites.FavoriteTeachers` | src/pages/Favorites.jsx:10-12 | the teachers whose id is a favourite, with all their copies, in teacher order, never more than the teachers |
| `Favorites.OnlyTheSetOfIdsMatters` | src/pages/Favorites.jsx:11 | the order and repetition of the favourite ids do not matter |
| `Favorites.UnknownIdsIgnored` | src/pages/Favorites.jsx:11 | an id no teacher has changes nothing |
| `Favorites.ToggleFlipsTeacher` | src/pages/Favorites.jsx:11-17 | toggling an id flips the teachers with that id and keeps every other teacher's presence |
| `MyBookings.ByStatus` | src/pages/MyBookings.jsx:11 | exactly the bookings with that status, with all their copies, in the original order |
| `MyBookings.BookingsView.constructor` | src/pages/MyBookings.jsx:9 | the tab starts at `'upcoming'` |
| `MyBookings.BookingsView.ShowUpcoming` | src/pages/MyBookings.jsx:26 | the tab becomes `'upcoming'` |
| `MyBookings.BookingsView.ShowPast` | src/pages/MyBookings.jsx:35 | the tab becomes `'past'` |
| `MyBookings.BookingsView.FilteredBookings` | src/pages/MyBookings.jsx:11 | what a tab shows only ever has one of the two statuses |
| `MyBookings.TabsPartition` | src/pages/MyBookings.jsx:11 | the two tabs and the other-status bookings together count every booking once |
| `MyBookings.TabsCover` | src/pages/MyBookings.jsx:11 | the tabs are disjoint, cover both statuses, and hide every other status |
| `MyBookings.NewBookingOnTop` | src/context/DataContext.jsx:77-83 | a booking added without a status heads the upcoming tab and leaves the past tab alone |
| `TeacherHome.TeacherBookings` | src/pages/TeacherHome.jsx:11-13 | exactly the bookings of teacher 1 with status `'upcoming'`, with all their copies, in order |
| `TeacherHome.ParsePrice` | src/pages/TeacherHome.jsx:19 | a price counts as the number formed by all its digits, 0 when it has none |
| `TeacherHome.ParsePricePrefixed` | src/pages/TeacherHome.jsx:17-19 | a digit-free prefix followed by a number, such as "CHF 30", counts as that number |
| `TeacherHome.Revenue` | src/pages/TeacherHome.jsx:18-21 | revenue is 850 plus the summed prices of the teacher's upcoming bookings |
| `TeacherHome.RevenueOfNewBooking` | src/pages/TeacherHome.jsx:18-21 | a new front booking adds its price exactly when it is teacher 1's and upcoming |
| `TeacherHome.IdSet` | src/pages/TeacherHome.jsx:16 | `new Set(...)` holds the id of every booking and no other id; its size is bounded in `TeacherHome.UniqueStudents` |
| `TeacherHome.UniqueStudents` | src/pages/TeacherHome.jsx:16 | the distinct-id count never exceeds the number of bookings |
| `TeacherHome.StudentsCard` | src/pages/TeacherHome.jsx:24 | the card is captioned "Élèves", and its trend is "Stable" exactly when no distinct id exists |
| `TeacherHome.Stats` | src/pages/TeacherHome.jsx:23-27 | three cards, captioned students, upcoming classes and revenue, in that order |
| `TeacherHome.StudentsCardShows` | src/pages/TeacherHome.jsx:16-24 | the students value reads back as 24 plus the distinct ids; the trend is "Stable" exactly for none, else "+n" |
| `TeacherHome.StatsShow` | src/pages/TeacherHome.jsx:23-27 | three cards; the upcoming value reads back as the booking count; revenue is "CHF " and 850 plus the prices |
| `TeacherCourses.Payload` | src/pages/TeacherCourses.jsx:55-60 | the five form fields are copied; an edit keeps id, reviews and rating; a new course gets the clock id, 0 and 0 |
| `TeacherCourses.ShownCourses` | src/pages/TeacherCourses.jsx:16-17 | the list shown is empty or the courses of a teacher with id 1 |
| `TeacherCourses.ShownCoursesOfFirstTeacher` | src/pages/TeacherCourses.jsx:16-17 | the list is the first teacher 1's courses, or empty without that teacher or its `courses` |
| `TeacherCourses.CanSave` | src/pages/TeacherCourses.jsx:53 | the blank form can never be saved |
| `TeacherCourses.WithFieldsKeepsTitleAndPrice` | src/pages/TeacherCourses.jsx:190-238 | edits of style, level or duration leave the title and the price alone |
| `TeacherCourses.NewCourseNeedsTitleAndPrice` | src/pages/TeacherCourses.jsx:40-53 | a new course can be saved exactly when a title and a price were typed in, whatever the other fields hold |
| `TeacherCourses.ResaveUnchanged` | src/pages/TeacherCourses.jsx:29-60 | opening a course and saving it untouched gives back the same course |
| `TeacherCourses.EditKeepsCount` | src/pages/TeacherCourses.jsx:56-62 | saving an edit of a listed course keeps the count and takes the first slot with its id |
| `TeacherCourses.NewCourseAppended` | src/pages/TeacherCourses.jsx:56-62 | saving a new course with an unused clock id appends it |
| `TeacherCourses.CourseEditor.constructor` | src/pages/TeacherCourses.jsx:19-27 | closed, nothing being edited, blank form |
| `TeacherCourses.CourseEditor.OpenModal` | src/pages/TeacherCourses.jsx:29-50 | opens; with a course, edits it and copies its five fields; without, clears the target and resets the form |
| `TeacherCourses.CourseEditor.CloseModal` | src/pages/TeacherCourses.jsx:168 | the modal closes |
| `TeacherCourses.CourseEditor.ChangeField` | src/pages/TeacherCourses.jsx:180 | one form field takes the input's value |
| `TeacherCourses.CourseEditor.Save` | src/pages/TeacherCourses.jsx:52-64 | without title or price nothing changes; otherwise the payload is upserted for teacher 1 and the modal closes |
| `TeacherCourses.CourseEditor.Delete` | src/pages/TeacherCourses.jsx:66-70 | deletes from teacher 1 only when confirmed |
| `Signup.Destination` | src/pages/Signup.jsx:37 | `/teacher` exactly for the role "teacher", `/student` otherwise |
| `Signup.NextDisabled` | src/pages/Signup.jsx:186 | loading always disables Next; past step 2 only loading does |
| `Signup.NextBlockedOnlyByItsStep` | src/pages/Signup.jsx:186 | step 1 needs a role, step 2 a name and an email, step 3 nothing; loading always disables |
| `Signup.FilledDotsCountTheStep` | src/pages/Signup.jsx:50-51 | exactly `step` of the three dots are filled |
| `Signup.SignupWizard.constructor` | src/pages/Signup.jsx:7-14 | step 1, empty fields, no interests, not loading |
| `Signup.SignupWizard.ChooseRole` | src/pages/Signup.jsx:69 | the role is set |
| `Signup.SignupWizard.SetName` | src/pages/Signup.jsx:123 | the name is set |
| `Signup.SignupWizard.SetEmail` | src/pages/Signup.jsx:137 | the email is set |
| `Signup.SignupWizard.ToggleInterest` | src/pages/Signup.jsx:18-25 | the interests become the toggled list |
| `Signup.SignupWizard.HandleNext` | src/pages/Signup.jsx:27-35 | steps 1 to 2 to 3, finishing (and loading) only at 3, when the role is captured for the delayed callback; the step stays within 1 to 3 |
| `Signup.SignupWizard.PressNext` | src/pages/Signup.jsx:185-187 | a disabled button changes nothing; otherwise it acts as `handleNext`, capturing the role when it finishes |
| `Signup.SignupWizard.Back` | src/pages/Signup.jsx:46 | steps back above 1, leaves for the login page at 1; the step stays within 1 to 3 |
| `Signup.SignupWizard.FinishSignup` | src/pages/Signup.jsx:34-39 | navigates to the destination of the role captured when Next started finishing, not the role shown now, and clears loading |
| `Signup.BackWhileLoadingKeepsDestination` | src/pages/Signup.jsx:32-46 | choosing "teacher", finishing, going back twice and choosing "student" still leads to `/teacher` |

## Left out

- Browser storage: the three lists are read from and written to local storage
  as JSON (`src/context/DataContext.jsx:12-27`, `37-47`). The store starts
  from given lists, and persistence is not modelled.
- The clock: `Date.now()` ids are a parameter `now`.
- `setTimeout` delays, navigation and the login flags in local storage
  (`src/pages/Signup.jsx:34-39`). `FinishSignup` returns the path instead of
  navigating. The browser's confirmation dialog is a parameter `confirmed`.
- Slots, chats, realtime updates, `bookSlot` and `src/pages/Checkout.jsx`.
  The provider in `src/context/DataContext.jsx` implements none of them, so
  they are not part of this model.
- Rendering, routing and hard-coded mock data (teachers, bookings, activity,
  chart). Display-only teacher and booking fields (images, bio, coordinates,
  style and location snapshots) are not modelled.
- Ratings are `real` values. They are only copied or set to 0, so
  floating-point behaviour does not arise.
- `Text.Lower`: lowers Basic Latin and Latin-1 capitals only. Other Unicode
  case mappings of `toLowerCase` are not modelled.
- `Text.ParseInt`: integers are unbounded. The loss of precision of JavaScript
  numbers beyond 2^53 is not modelled.
- `Text.IntToString`: writes plain decimal digits for every integer.
  JavaScript's `String(n)` switches to exponent form from 1e21 in magnitude
  (`"1e+21"`, which `parseInt` reads as 1), so `Text.ParseIntRoundTrip` holds
  for the source only below that bound.
- Ids are integers; the model has no `NaN` id.
- A `BookingRequest` field is either absent or present with a value. A key
  present with the value `undefined`, which would override a default with
  `undefined`, is not modelled.
- A teacher without `styles` makes the search throw once a category other
  than "Tous" is selected (`src/pages/StudentHome.jsx:18` stops at "Tous"
  otherwise). An upcoming booking of teacher 1 whose `price` is missing or is
  not a string makes the dashboard throw (`src/pages/TeacherHome.jsx:18-19`);
  other bookings never reach that `replace`. The model's records always carry
  these fields, with a string price.
- When `deleteCourse` throws, the model reports the error and keeps the
  teachers. What React then does with the failed update is not modelled.
