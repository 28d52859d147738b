# Blog application: creation form and root view state

This project models the two parts of the blog single-page application that
hold logic of their own.

- **The creation form** (`src/components/CreateBlogForm.tsx`):
  - Its draft is a record of five text fields. It starts empty.
  - A change event replaces one field.
  - On submit, the browser's `required` check runs first. Then a payload is
    posted. The payload is the draft with `category` replaced by a list of
    tags: the input split on `,`, each segment trimmed and upper-cased, with
    empty segments kept. A timestamp is added as `date`.
  - A response that is not ok fails with `Failed to create blog` and keeps
    the draft.
  - On success the form invalidates the `['blogs']` query, clears all five
    fields, and then calls the parent's `onSuccess`.
- **The root view** (`src/App.tsx`):
  - It holds `selectedBlogId: number | null` and `showCreateForm: bool`.
  - The header button toggles the form. The form's success callback hides it.
  - A click in the list sets the selection.
  - The state decides what is mounted: the form alone, or the list beside
    either the selected blog's detail or a placeholder. Selection is tested
    by JavaScript truthiness, so an id of `0` shows the placeholder.

Modules:

- `JsString` (`js_string.dfy`): the JavaScript string operations `split`,
  `trim` and `toUpperCase`, over ASCII. Whitespace is space, tab, CR and LF,
  and upper-casing maps `a`-`z` only. It also has `join`, which is used to
  characterise `split` as its inverse.
- `CreateBlogForm` (`create_blog_form.dfy`): the draft, the payload, the
  category normalisation, `createBlog`, and the class `Form` holding the
  component's state.
- `RootView` (`app.dfy`): the header, the main-panel choice, and the class
  `App` holding the two state variables and the mounted form.

The things the form hands to the outside are recorded as values in the
model:

- Every posted payload is appended to `Form.sent`.
- The query invalidation and the parent callback are appended to
  `Form.effects`, in the order the success handler performs them.

## Model

| member | source | states |
|---|---|---|
| JsString.UpperChar | src/components/CreateBlogForm.tsx:30 | upper-casing one character yields no lower-case letter; it moves `a`-`z` down by 32 to `A`-`Z` and keeps every other character, so whitespace and commas are preserved |
| JsString.ToUpperCase | src/components/CreateBlogForm.tsx:30 | `toUpperCase` keeps the length and upper-cases each character in place |
| JsString.ToUpperCaseIsUpper | src/components/CreateBlogForm.tsx:30 | the result of `toUpperCase` contains no lower-case letter |
| JsString.ToUpperCaseIdempotent | src/components/CreateBlogForm.tsx:30 | upper-casing twice equals upper-casing once |
| JsString.ToUpperCaseOfUpper | src/components/CreateBlogForm.tsx:30 | a string without lower-case letters is unchanged by `toUpperCase` |
| JsString.ToUpperCaseKeepsTrimmed | src/components/CreateBlogForm.tsx:30 | upper-casing a trimmed string leaves it trimmed |
| JsString.TrimStart | src/components/CreateBlogForm.tsx:30 | the result is no longer than the input and does not start with whitespace |
| JsString.TrimStartSuffix | src/components/CreateBlogForm.tsx:30 | the result of `trimStart` is a suffix of the input, and everything it dropped is whitespace |
| JsString.TrimEnd | src/components/CreateBlogForm.tsx:30 | the result is no longer than the input and does not end with whitespace |
| JsString.TrimEndPrefix | src/components/CreateBlogForm.tsx:30 | the result of `trimEnd` is a prefix of the input, and everything it dropped is whitespace |
| JsString.TrimKeeps | src/components/CreateBlogForm.tsx:30 | a character that is not whitespace occurs in the trimmed string exactly when it occurs in the input |
| JsString.Trim | src/components/CreateBlogForm.tsx:30 | the result of `trim` has no whitespace at either end |
| JsString.TrimDecomposes | src/components/CreateBlogForm.tsx:30 | `trim` returns a contiguous middle part of the input with only whitespace before and after it |
| JsString.TrimUnique | src/components/CreateBlogForm.tsx:30 | for any whitespace `lead` and `trail` around a trimmed `m`, `trim` returns exactly `m` (the decomposition is unique) |
| JsString.TrimOfTrimmed | src/components/CreateBlogForm.tsx:30 | a string without surrounding whitespace is its own trim, so `trim` is idempotent |
| JsString.Count | src/components/CreateBlogForm.tsx:30 | the number of occurrences of a character is at most the length, and is zero exactly when the character is absent |
| JsString.Split | src/components/CreateBlogForm.tsx:30 | `split` on a one-character separator yields (number of separators) + 1 segments |
| JsString.SplitNoSeparator | src/components/CreateBlogForm.tsx:30 | no segment produced by `split` contains the separator |
| JsString.JoinSplit | src/components/CreateBlogForm.tsx:30 | joining the segments with the separator gives back the input |
| JsString.SplitJoin | src/components/CreateBlogForm.tsx:30 | splitting a join of separator-free segments gives back those segments, so `split` is the unique inverse of `join` |
| JsString.SplitTrailingSeparator | src/components/CreateBlogForm.tsx:30 | a trailing separator adds exactly one empty segment at the end |
| CreateBlogForm.With | src/components/CreateBlogForm.tsx:72-77 | after a change on field `f` with value `v`, field `f` reads `v` and every other field is unchanged |
| CreateBlogForm.InitialDraft | src/components/CreateBlogForm.tsx:44-50 | all five fields of the initial draft are empty |
| CreateBlogForm.NormaliseCategories | src/components/CreateBlogForm.tsx:30 | the category list has exactly one more entry than there are commas in the input, so it is never empty |
| CreateBlogForm.NormalisedSegmentIsTag | src/components/CreateBlogForm.tsx:30 | a comma-free segment, trimmed and upper-cased, has no surrounding whitespace, no lower-case letter and no comma |
| CreateBlogForm.NormaliseCategoriesAreTags | src/components/CreateBlogForm.tsx:30 | every entry of the category list is such a tag |
| CreateBlogForm.NormaliseCategoriesSegments | src/components/CreateBlogForm.tsx:30 | for any separator-free pieces that join back to the input, tag `i` is piece `i` trimmed then upper-cased, in input order |
| CreateBlogForm.NormaliseCategoriesIdempotent | src/components/CreateBlogForm.tsx:30 | normalising the comma-joined tags again gives the same list |
| CreateBlogForm.NormaliseBlankSegment | src/components/CreateBlogForm.tsx:30 | an empty or whitespace-only segment becomes an empty tag at its own position; it is not filtered out |
| CreateBlogForm.NormaliseTrailingComma | src/components/CreateBlogForm.tsx:30 | a trailing comma keeps all earlier tags and appends one empty tag |
| CreateBlogForm.NormaliseBlank | src/components/CreateBlogForm.tsx:30 | an empty or whitespace-only input yields the single tag `""` |
| CreateBlogForm.NormaliseExample | src/components/CreateBlogForm.tsx:30 | a mixed-case input with a space after the comma, `"tech, Finance"`, yields `["TECH", "FINANCE"]` |
| CreateBlogForm.NormaliseDoubleComma | src/components/CreateBlogForm.tsx:30 | `"a,,b"` yields `["A", "", "B"]` |
| CreateBlogForm.FilledCategoryMayGiveEmptyTags | src/components/CreateBlogForm.tsx:100-107 | a draft that passes the `required` check can still produce an empty tag (category `","`) |
| CreateBlogForm.BuildPayload | src/components/CreateBlogForm.tsx:28-32 | the payload carries title, description, coverImage and content unchanged from the draft; its category list is exactly the normalised category input (split on `,`, each segment trimmed and upper-cased), so it has commas + 1 entries, each a tag; `date` is the given timestamp |
| CreateBlogForm.CreateBlog | src/components/CreateBlogForm.tsx:22-40 | the call succeeds exactly on an ok reply whose body parses, and then it carries the payload built from the draft; a non-ok response fails with `Failed to create blog`; a failed `fetch` fails with its own message |
| CreateBlogForm.Form.constructor | src/components/CreateBlogForm.tsx:44-50 | the form starts with the initial draft, nothing sent and no effects |
| CreateBlogForm.Form.HandleChange | src/components/CreateBlogForm.tsx:72-77 | the named field now holds the new value; the other four fields are unchanged |
| CreateBlogForm.Form.OnSuccess | src/components/CreateBlogForm.tsx:54-64 | invalidates `['blogs']`, resets every field to `""`, then notifies the parent exactly once |
| CreateBlogForm.Form.Submit | src/components/CreateBlogForm.tsx:67-70 | an empty field blocks the submission, with no request and no change; otherwise exactly one payload is posted; only a success clears the draft and records the two effects; a failure keeps the draft |
| RootView.Header | src/App.tsx:16-21 | the label is `Cancel` exactly when the form is shown, otherwise `Create New Blog`; the variant is `outline` exactly when the form is shown and `default` otherwise |
| RootView.Main | src/App.tsx:26-53 | the form panel is mounted exactly when the form is shown, and then neither list nor detail is; otherwise the list gets the selection, and the detail is mounted iff the selection is truthy, for that id |
| RootView.ZeroIdShowsPlaceholder | src/App.tsx:44-50 | with the form hidden, both `null` and `0` show the placeholder |
| RootView.SelectionDecidesDetail | src/App.tsx:44-50 | after selecting `id` with the form hidden, the detail for `id` is mounted iff `id != 0` |
| RootView.App.constructor | src/App.tsx:8-9 | initial state: no selection, form hidden and not mounted; the list and the placeholder show |
| RootView.App.ToggleCreateForm | src/App.tsx:17 | flips `showCreateForm` and keeps the selection; showing the form mounts a fresh one with an empty draft |
| RootView.App.FormSucceeded | src/App.tsx:29-31 | from any state, hides and unmounts the form; the selection is untouched |
| RootView.App.SelectBlog | src/App.tsx:37-40 | the selection becomes the clicked id |
| RootView.App.SubmitForm | src/App.tsx:28-32 | an empty field blocks the submission with nothing posted; otherwise exactly the payload built from the draft is posted; a success clears the form's draft, records the invalidation and the parent notification, and then hides the form; any other outcome keeps the form shown with its draft and records no effect |

## Left out

- Network I/O is left out. The `fetch` in `createBlog` is replaced by a
  `Reply` parameter: an HTTP response that is ok or not, or a failed
  `fetch` with its message. The response body (`response.json()`) is not
  modelled.
- The list and detail fetches (`src/components/BlogList.tsx`,
  `src/components/BlogDetail.tsx`) and their rendering are left out. They
  are network reads and JSX driven by the query library's status flags.
- The query library's cache, deduplication and re-fetch are left out.
  `invalidateQueries` is only recorded as an effect. The mutation's
  `isPending`, `isSuccess` and `error` flags are left out too, and so are
  the labels and alerts they drive. Submissions are taken one at a time.
- CreateBlogForm.CreateBlog: an ok reply always counts as created. The body
  of an ok response is parsed with `response.json()`. If that parse fails,
  the real `createBlog` rejects, the mutation fails, the draft is kept,
  nothing is invalidated and the form stays shown. The model does not
  capture that case.
- The timestamp `new Date().toISOString()` depends on the clock. It is a
  string parameter of `Submit`.
- JsString.UpperChar: covers ASCII only. Unicode case mapping can change a
  string's length, so it is out of scope.
- JsString.Trim: treats space, tab, CR and LF as whitespace. The other
  Unicode whitespace characters that JavaScript's `trim` drops are not
  modelled.
- CreateBlogForm.Form.HandleChange: takes one of the five fields, not the
  raw `e.target.name` string. Every input in the form carries one of those
  five names, so a change event never adds a sixth key.
- CreateBlogForm.Form.Submit: the browser gate checks only that no field
  is empty, as `required` does. The `type="url"` validity of the cover
  image is not modelled. `preventDefault` is DOM behaviour and is left out.
- RootView.App.SelectBlog: ids are integers. The non-integer and NaN
  values a JavaScript `number` could hold are not modelled. Server ids are
  integers.
- RootView.App.SubmitForm: after unmounting, the form's object is not
  reachable from `App`. Its last draft and effects are stated about
  `old(form)`.
- JSX markup, styling and the `ui/*` component primitives are left out.
