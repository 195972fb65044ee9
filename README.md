# Learning store — a Dafny model

This project models `LearningStore`, the client-side store of the learning application
(`src/app/learning/application/learning.store.ts`). The store caches two collections fetched
from a remote gateway, courses and categories, together with a `loading` flag and a single
nullable `error` message. Every mutation follows the same steps:

1. raise `loading` and clear `error`;
2. call the gateway through `retry(2)`, so at most three requests are made;
3. on success, update the collection by appending, by replacing every entry with the returned
   entity's id (`map`), or by dropping every entry with the given id (`filter`);
4. on failure, leave the collections alone and store `formatError(err, fallback)`.

The store also resolves each course's `category` from its `categoryId` foreign key
(`assignCategoryToCourse`). It offers lookups by id, where id 0 means "no lookup", and the two
counts `courseCount` and `categoryCount`.

Layout:

- `options.dfy` — `Option`, for `undefined`/`null` results and the `?? 0` default.
- `errors.dfy` — `Thrown`, the value an error handler receives, and `FormatError`.
  `Includes` is the scanning `s.includes(part)`. It is proved equal to `Mentions`, the plain
  "occurs at some index" definition.
- `retrying.dfy` — `Reply` (one gateway answer) and `Retry`, the value a subscriber to
  `request.pipe(retry(n))` receives.
- `collections.dfy` — the list transforms, generic in the entity kind through an id key:
  `FindFirst` (`find`), `LookupById` (`id ? find : undefined`), `ReplaceById` (`map`) and
  `RemoveById` (`filter`), with lemmas relating them.
- `entities.dfy` — `Category`, a value, and `Course`, a class. The store writes only
  `course.category`, so the other course fields are constants.
- `learning_store.dfy` — `ResolveCategory` (the relation resolver) and the `LearningStore`
  class. The class has fields `courses: seq<Course>`, `categories: seq<Category>`,
  `loading: bool` and `error: Option<string>`, and one method per operation.
- `scenarios.dfy` — client scenarios: a stale category after a delete, a success on the third
  attempt, three failures, and two added courses that share id 0.

How the outside world enters the model:

- The gateway is not modelled. Each mutation takes `replies`: `replies[i]` is what the
  (i+1)-th request would produce. The store acts on `Retry(replies, 2)`, so callers must
  supply the answers to the first three requests. Any later replies are never consulted
  (`RetryIgnoresLaterReplies`).
- The two loads are not retried, so they take a single `Reply`.
- Each load and mutation is one atomic step. `StartRequest` is its common prefix.
- The constructor only sets the initial state. The two loads it starts run concurrently in
  the source. Here they are the separate methods `LoadCategories` and `LoadCourses`, which a
  caller may run in either order.
- `updateCourse` and `updateCategory` use only what the gateway returns, so the model's
  versions take only the replies. The entity that was sent appears only in the gateway's
  answer.

Behaviour reproduced as the code has it:

- `addCourse` appends the course it was *given*, with its category resolved. The course the
  server returned is discarded (line 113). Ids are therefore not unique. Courses built by the
  course form for creation carry id 0, so they cannot be found by id, neither by 0 nor by the id the server assigned
  (`Scenarios.AddedCoursesKeepInputId`).
- `updateCourse` reports failure with the text "Failed to update category" (line 178).
- Category mutations never re-resolve `course.category`. A cached course can keep a category
  that has since been renamed or deleted (`Scenarios.StaleCategoryAfterDelete`).
- `assignCategoryToCourse` writes to the very object it is given. In the model this is a
  `Course` object, so aliasing is kept. For example, the input of `addCourse` is the object
  that gets cached.

Behaviour of the code worth noting:

- Cached courses are resolved right after the *courses* load (line 56). They are resolved
  against whatever categories are cached at that moment. They are not resolved after the
  categories load.
- Any `Error` instance shows its own message, even an empty one. The fallback text is shown
  only for a "not found" error or a thrown value that is not an `Error`. So a failing call
  does not always produce an error message that contains the fallback.
- Ids are not kept unique. Adding never checks them, and several entries may share an id;
  replace and delete act on all of them.

The counts `courseCount` and `categoryCount` (learning.store.ts lines 19-20) are modelled as the
definitions `LearningStore.CourseCount` and `LearningStore.CategoryCount`, the lengths of the two
lists. How each operation changes them is stated in the `AddCourse` and `AddCategory` contracts and
follows from the others.

The invariant `LearningStore.Valid()` says that every cached course's `category` is either
absent or carries the course's foreign key. This is the consistency the store maintains. Every
operation preserves it. It does not say that the category is still cached.

## Model

| member | source | states |
|---|---|---|
| `Errors.FormatError` | src/app/learning/application/learning.store.ts:38-43 | An `Error` whose message contains "Resource not found" gives `fallback + ": Not found"`; any other `Error` gives its own message; a non-`Error` gives `fallback` |
| `Errors.IncludesMeansMentions` | src/app/learning/application/learning.store.ts:40 | The scanning `includes` is true exactly when the part occurs at some index of the message |
| `Errors.FallbackShownUnlessOwnMessage` | src/app/learning/application/learning.store.ts:38-43 | The message starts with the fallback text whenever the error is not an `Error` or is a "not found" one |
| `Retrying.RetrySettles` | src/app/learning/application/learning.store.ts:111 | With `retry(n)` the call succeeds iff one of the first n+1 requests succeeds; it delivers the first success, else the error of the (n+1)-th request |
| `Retrying.RetryIgnoresLaterReplies` | src/app/learning/application/learning.store.ts:131 | Two gateways that agree on their first n+1 answers give the same outcome: no further request is made |
| `Collections.FindFirst` | src/app/learning/application/learning.store.ts:91 | `find` yields nothing iff no entry has the id; otherwise it yields an entry with that id, and it is the entry at the first index carrying it |
| `Collections.ReplaceById` | src/app/learning/application/learning.store.ts:153 | The `map` keeps the length; every entry with the new entity's id becomes that entity; every other entry stays in place unchanged |
| `Collections.ReplaceAbsentIsIdentity` | src/app/learning/application/learning.store.ts:174 | Replacing by an id no entry has leaves the list as it was |
| `Collections.ReplaceIdempotent` | src/app/learning/application/learning.store.ts:153 | Replacing twice with the same entity equals replacing once |
| `Collections.LookupAfterReplace` | src/app/learning/application/learning.store.ts:170-175 | After replacing by a nonzero id that was present, the lookup of that id finds the replacing entity |
| `Collections.RemoveById` | src/app/learning/application/learning.store.ts:193 | The `filter` leaves no entry with the id; every survivor was in the list; every entry without the id survives |
| `Collections.RemoveByIdAppend` | src/app/learning/application/learning.store.ts:213 | Filtering distributes over concatenation, so the survivors keep their original order |
| `Collections.RemoveAbsentIsIdentity` | src/app/learning/application/learning.store.ts:193 | Deleting an id no entry has leaves the list as it was |
| `Collections.RemoveShrinksIffPresent` | src/app/learning/application/learning.store.ts:213 | The list gets shorter exactly when some entry has the id |
| `Collections.LookupAfterAppend` | src/app/learning/application/learning.store.ts:114 | After an append, a lookup answers as before when it found something before; otherwise it finds the appended entry iff the id is nonzero and is the entry's id |
| `Collections.FindFirstAppend` | src/app/learning/application/learning.store.ts:133 | `find` on a list with an entry appended finds the earlier match if any, else the new entry if it matches |
| `Entities.Course.constructor` | src/app/learning/presentation/views/course-form/course-form.ts:61-66 | A new course has the given id, title, description and foreign key, and no resolved category |
| `Learning.ResolveCategory` | src/app/learning/application/learning.store.ts:223-227 | No category when the foreign key is absent, 0 or matches no cached category; otherwise the first cached category with that id, whose id equals the key |
| `Learning.ReadsAreStable` | src/app/learning/application/learning.store.ts:89-101 | Two lookups with no change to the store in between give the same entity in the same state |
| `Learning.LearningStore.constructor` | src/app/learning/application/learning.store.ts:15-25 | The store starts with empty collections, `loading` false and no error |
| `Learning.LearningStore.GetCategoryById` | src/app/learning/application/learning.store.ts:89-92 | None for id 0 or an id no category has; otherwise the first cached category with that id |
| `Learning.LearningStore.GetCourseById` | src/app/learning/application/learning.store.ts:98-101 | None for id 0 or an id no course has; otherwise the first cached course with that id |
| `Learning.LearningStore.StartRequest` | src/app/learning/application/learning.store.ts:109-110 | An operation starts with `loading` raised and `error` cleared, touching nothing else |
| `Learning.LearningStore.AssignCategoryToCourse` | src/app/learning/application/learning.store.ts:223-227 | The given course object's `category` becomes the resolved category; nothing else changes |
| `Learning.LearningStore.AssignCategoriesToCourses` | src/app/learning/application/learning.store.ts:229-232 | Every cached course object gets its category resolved against the cached categories; the list itself is unchanged |
| `Learning.LearningStore.LoadCourses` | src/app/learning/application/learning.store.ts:48-63 | On success the fetched courses replace the cache and are resolved; on failure the cache stays and the error reads "Failed to load courses" formatted; `loading` ends false |
| `Learning.LearningStore.LoadCategories` | src/app/learning/application/learning.store.ts:68-82 | On success the fetched categories replace the cache, and courses are not re-resolved; on failure the cache stays and the error is formatted; `loading` ends false |
| `Learning.LearningStore.AddCourse` | src/app/learning/application/learning.store.ts:108-122 | After the retried call succeeds, the input course, resolved, is appended and the count grows by one; on failure the courses and the input are unchanged and the formatted error is stored |
| `Learning.LearningStore.AddCategory` | src/app/learning/application/learning.store.ts:128-141 | After the retried call succeeds, the returned category is appended; on failure the categories are unchanged and the error is stored; no cached course changes |
| `Learning.LearningStore.UpdateCategory` | src/app/learning/application/learning.store.ts:147-161 | After the retried call succeeds, the returned category replaces every entry with its id; on failure the categories are unchanged; no cached course changes |
| `Learning.LearningStore.UpdateCourse` | src/app/learning/application/learning.store.ts:167-182 | After the retried call succeeds, the returned course is resolved and replaces every entry with its id; on failure the courses are unchanged and the error uses "Failed to update category" |
| `Learning.LearningStore.DeleteCourse` | src/app/learning/application/learning.store.ts:188-201 | After the retried call succeeds, exactly the courses without the id remain and the id is no longer found; on failure the courses are unchanged and the error is stored |
| `Learning.LearningStore.DeleteCategory` | src/app/learning/application/learning.store.ts:208-221 | After the retried call succeeds, exactly the categories without the id remain; cached courses keep their possibly dangling category; on failure nothing but the error changes |
| `Scenarios.StaleCategoryAfterDelete` | src/app/learning/application/learning.store.ts:208-227 | A course resolved to category 1 still shows it after category 1 is deleted and another course is updated |
| `Scenarios.ThirdAttemptSucceeds` | src/app/learning/application/learning.store.ts:108-116 | Two failures followed by a success add the course and leave no error |
| `Scenarios.ThreeFailuresSurfaceError` | src/app/learning/application/learning.store.ts:117-120 | Three failures add nothing and store the third failure's formatted error, which is "Failed to create course" for a non-`Error` |
| `Scenarios.AddedCoursesKeepInputId` | src/app/learning/application/learning.store.ts:112-114 | Two courses added with id 0 are both cached as given, under id 0, and looking up the id the server returned finds nothing |

## Left out

- The HTTP gateway (`LearningApi`, `courses-api-endpoint.ts`) and its DTO mapping: its answers are parameters.
- RxJS and Angular plumbing (`subscribe`, `pipe`, `takeUntilDestroyed`, `signal`, `computed`) and `console.log`. The signals are plain fields, and the computed views are functions of them.
- Concurrency: the two loads started by the constructor and overlapping mutations may interleave in the source. Here every load and mutation is a single atomic step. So the model neither captures `loading` being observed as true while a request is in flight nor a response arriving after the store is torn down.
- Ids are JavaScript numbers; the model uses unbounded integers, and "falsy id" means id 0 (`NaN` is not modelled).
- The course and category entity classes are not part of this model. Their fields are taken from the store's use of them and from the course form. Mutations of course fields other than `category` by code outside the store are not modelled.
- The presentation views (course form, lists, layout, language switcher, the exercise pages) are glue around the store and are not modelled.
