# DailyPicTrack client core in Dafny

DailyPicTrack is a React photo log. Users sign in and upload photos with
notes and tags. They then see them on a dashboard and in a paged gallery.
This project models the client's core and proves properties of it:

- the session kept in a `token` cookie (`src/utils/auth.js`);
- the HTTP client's two interceptors (`src/utils/api.js`);
- the login, navigation, gallery, upload dialog, stand-alone upload form
  and dashboard handlers.

Each source file becomes one module. Shared modules hold the JavaScript
semantics the handlers rely on:

- `Text`: truthiness, `trim`, `startsWith`, `indexOf`, a one-character
  `replace`, and the `a || b || c` chain.
- `Seqs`: `filter` and `slice`.
- `Json`: `JSON.stringify` of a string array, with a reader it is proved
  against.
- `Media`: files, image records and `FormData` entries.
- `Browser`: the address bar.

State the source keeps in React hooks or in the cookie is a class field that
the handler methods update:

- `Auth.TokenStore`: the cookie slot.
- `Browser.Location`: the address.
- One class per page, holding that page's `useState` variables.

Effects the pages cannot see the inside of are inputs:

- `jwtDecode` is a function parameter, `Auth.Decoder`.
- `atob` is a function parameter, `ImageUploadForm.Base64Decoder`.
- The clock is an integer number of milliseconds.
- How each awaited request ends is an `Api.Settled` value handed to the
  handler.

These `async` handlers are split at their `await`, so that other handlers
can run between the two halves:

- `UploadModal.Dialog.Submit` and `Settle`;
- `ImageUploadForm.Form.Submit` and `Settle`;
- `Dashboard.DashboardPage.BeginFetch` and `FinishFetch`.

The other `async` handlers are each one step, from the call to the settled
request; "## Left out" names them.

### Expired tokens stay in the slot

`isAuthenticated` (`src/utils/auth.js:15-26`) never removes an expired
token. It only compares `exp` with the clock, and removes the token only
when `jwtDecode` throws on it. `Auth.TokenStore.IsAuthenticated` keeps an
expired token accordingly, and `Auth.TokenStore.ExpiredTokenKeepsUser`
states that, once such a token is stored, `isAuthenticated` says no while
`getCurrentUser` still returns its user.

### The 401 rule

Every request goes through the response interceptor. Its 401 teardown is
`Api.Client.OnResponse`. `Login.LoginPage.HandleSubmit` calls it; the
contracts of the other handlers describe the page once `OnResponse` has
run on the reply:

- `Gallery.GalleryPage.FetchImages`;
- `Dashboard.DashboardPage.FinishFetch`, `HandleDelete` and `HandleCapture`;
- `UploadModal.Dialog.Settle`;
- `ImageUploadForm.Form.Settle`.

The dashboard never sets `showCamera` to true. Its camera overlay therefore
never opens on that page.

## Model

| member | source | states |
|---|---|---|
| Auth.UnexpiredInSeconds | src/utils/auth.js:21 | comparing `exp * 1000` with the clock in milliseconds is the source's comparison of `exp` with `Date.now() / 1000`; equality is not live, and a missing `exp` is never live |
| Auth.Unexpired | src/utils/auth.js:21 | a token is live exactly when it has an `exp` and `exp` is later than the current whole second |
| Auth.PhaseOf | src/utils/auth.js:16-21 | an empty or falsy slot is signed out; otherwise a token that does not decode is malformed, and a decodable one is live or expired as its claims say |
| Auth.TokenStore.Set | src/utils/auth.js:5-7 | the slot holds the given token afterwards |
| Auth.TokenStore.Remove | src/utils/auth.js:10-12 | the slot is empty afterwards |
| Auth.TokenStore.IsAuthenticated | src/utils/auth.js:15-26 | true exactly when the slot holds a truthy, decodable token whose `exp` lies in the future; an undecodable token is evicted; any other slot content is left as it was, expired tokens included |
| Auth.TokenStore.GetCurrentUser | src/utils/auth.js:29-39 | no user for an empty or falsy slot, otherwise the decoded claims; the slot is emptied exactly when a truthy token fails to decode |
| Auth.TokenStore.ExpiredTokenKeepsUser | src/utils/auth.js:5-39 | a stored, decodable, expired token is not live, stays in the slot, and still yields its claims as the user |
| Auth.TokenStore.HandleLogin | src/utils/auth.js:42-45 | the token is stored and the user read back from it; a token that does not decode ends up evicted again |
| Api.ServerMessage | src/pages/Login.jsx:32 | the server's `data.message` when an answer came, and none when no answer came |
| Api.Unauthorized | src/utils/api.js:28 | only an error that has an answer can be a 401, and an answer counts exactly when its status is 401 |
| Api.Bearer | src/utils/api.js:15 | the `Bearer ` scheme followed by exactly the token; `Api.BearerRoundTrip` reads the token back from it |
| Api.Credentials | src/utils/api.js:15 | the credentials of a Bearer header value; a value that does not start with `Bearer ` has none |
| Api.BearerRoundTrip | src/utils/api.js:15 | the header written for a token gives that token back |
| Api.Authorize | src/utils/api.js:13-16 | with a truthy token, the Authorization header carries exactly that token under the Bearer scheme; every other header is untouched, no header is added besides Authorization, and without a token nothing changes |
| Api.RequestConfig.constructor | src/utils/api.js:5-8 | the fixed base URL, and the 10-second timeout unless the call overrides it |
| Api.Client.OnRequest | src/utils/api.js:11-22 | the same config object is passed on, its headers authorized with the slot's token, and the slot is not changed |
| Api.Client.OnResponse | src/utils/api.js:25-34 | the reply is passed on unchanged; a 401 rejection empties the slot and sends the browser to `/login`; every other reply touches neither |
| Login.LoginPage.constructor | src/pages/Login.jsx:13-14 | no error text and not loading |
| Login.ErrorMessage | src/pages/Login.jsx:31-34 | the server's message when truthy, else the error's own message when non-empty, else the fixed default; never empty |
| Login.LoginPage.HandleSubmit | src/pages/Login.jsx:17-40 | a reply with a token stores it through `handleLogin` and navigates to `/dashboard` with no error; a reply without one shows "No token received" and leaves slot and address alone; a rejection shows its message after the 401 rule; loading is false at the end |
| Browser.Location.Navigate | src/pages/Login.jsx:29 | the address becomes the target: `navigate('/dashboard')` here, `navigate('/login')` at `src/components/Common/Navbar.jsx:10`, and the `window.location.href` assignment at `src/utils/api.js:30` |
| Navbar.Initial | src/components/Common/Navbar.jsx:31 | one letter: the first of a non-empty name upper-cased, else `U` |
| Navbar.Render | src/components/Common/Navbar.jsx:5-63 | a user found in the slot gives the account header with its initial and name; no user gives the sign-in link to `/login`; the slot changes as `getCurrentUser` changes it |
| Navbar.HandleLogout | src/components/Common/Navbar.jsx:8-11 | the slot is empty and the address is `/login` |
| Gallery.TotalPages | src/pages/GalleryPage.jsx:30 | the fewest pages of twelve that hold all images; zero exactly when there are none |
| Gallery.Page | src/pages/GalleryPage.jsx:31-34 | whatever the page number, a page holds at most twelve images, all from the list |
| Gallery.PageIsRun | src/pages/GalleryPage.jsx:31-34 | page `p` from 1 on is the run of images from `(p-1)*12` to `min(12p, n)`, in order, at most twelve |
| Gallery.PageNonEmpty | src/pages/GalleryPage.jsx:31-34 | a page from 1 on has images exactly up to the page count |
| Gallery.PageZeroEmpty | src/pages/GalleryPage.jsx:31-34 | page 0 is empty |
| Gallery.PagesPrefix | src/pages/GalleryPage.jsx:30-34 | the first `k` pages, concatenated, are the first `min(12k, n)` images |
| Gallery.PagesCoverAll | src/pages/GalleryPage.jsx:30-34 | all pages concatenated give back the whole list |
| Gallery.IndexOnOnePage | src/pages/GalleryPage.jsx:31-34 | an index lies in exactly one page's range: page `i / 12 + 1` |
| Gallery.ImageShownOnItsPage | src/pages/GalleryPage.jsx:30-34 | image `i` is at slot `i % 12` of page `i / 12 + 1`, which is a real page |
| Gallery.ViewOf | src/pages/GalleryPage.jsx:44-49 | the loader exactly while loading; "No images uploaded yet" exactly when loaded and the page is empty; otherwise the page's one to twelve images with the page count |
| Gallery.ViewAfterLoad | src/pages/GalleryPage.jsx:44-49 | once loaded, "No images uploaded yet" shows exactly past the last page; a grid holds one to twelve images |
| Gallery.GalleryPage.constructor | src/pages/GalleryPage.jsx:9-12 | no images, loading, page 1, no detail open |
| Gallery.GalleryPage.FetchImages | src/pages/GalleryPage.jsx:15-26 | the fetched list, or the empty list when it is missing or the request fails; loading is over either way |
| Gallery.GalleryPage.ChangePage | src/pages/GalleryPage.jsx:87 | the current page becomes the one chosen; nothing else changes |
| Gallery.GalleryPage.Select | src/pages/GalleryPage.jsx:60 | the clicked image, or none, is the one shown in detail |
| Seqs.Filter | src/pages/Dashboard.jsx:56 | an element is kept exactly when it is in the list and the test accepts it; the result is no longer than the list |
| Seqs.Slice | src/pages/GalleryPage.jsx:31-34 | the contiguous run of the list between the clamped relative start and end, empty when the end is not past the start |
| Json.Stringify | src/components/ImageUploadForm.jsx:39 | a bracketed text that is `[]` exactly for the empty list |
| Json.StringifyRoundTrip | src/components/ImageUploadForm.jsx:39 | the text `JSON.stringify` writes for a list of strings reads back as the same list, element for element and in order |
| Text.Trim | src/components/Upload/UploadModal.jsx:49-50 | the infix left when whitespace is stripped from both ends; it is empty exactly when the text is all whitespace |
| Text.TrimIdempotent | src/components/Upload/UploadModal.jsx:49-50 | trimming twice is trimming once |
| Text.RemoveFirst | src/components/ImageUploadForm.jsx:122 | only the first occurrence of the character is removed; the rest keep their order |
| Text.FirstTruthy | src/pages/Login.jsx:31-34 | the first truthy candidate, or the fallback when none is |
| UploadModal.Validate | src/components/Upload/UploadModal.jsx:17-41 | no file, then larger than 10 MiB, then not an `image/` type, in that order; otherwise the first file is accepted |
| UploadModal.OnlyFirstFileChecked | src/components/Upload/UploadModal.jsx:22 | files after the first never change the verdict |
| UploadModal.RejectionAlert | src/components/Upload/UploadModal.jsx:17-40 | one distinct alert per failed check, and none exactly for a file that passes |
| UploadModal.UploadForm | src/components/Upload/UploadModal.jsx:46-51 | the file under `image` with its name; `documentation` is present exactly when the notes hold a non-space character, and then holds the trimmed notes |
| UploadModal.UploadErrorMessage | src/components/Upload/UploadModal.jsx:103-111 | the server's message first, then the timeout text for `ECONNABORTED`, then the network text for `NETWORK_ERROR`, else the default; never empty |
| UploadModal.Dialog.constructor | src/components/Upload/UploadModal.jsx:5-7 | no files, no notes, not uploading |
| UploadModal.Dialog.SelectFiles | src/components/Upload/UploadModal.jsx:10-12 | the chosen files replace the selection |
| UploadModal.Dialog.EditDocumentation | src/components/Upload/UploadModal.jsx:194 | the notes become the typed text |
| UploadModal.Dialog.Submit | src/components/Upload/UploadModal.jsx:14-66 | a selection that fails a check only raises its alert; one that passes sets uploading and posts the upload form to `/images/upload` with a 60-second timeout |
| UploadModal.Dialog.Settle | src/components/Upload/UploadModal.jsx:77-116 | success clears files and notes, then calls `onUploadComplete` when given, `onClose`, and the success alert, in that order; failure alerts its message and keeps the form; uploading is false either way |
| UploadModal.Dialog.HandleClose | src/components/Upload/UploadModal.jsx:119-125 | ignored while uploading; otherwise it clears the form and calls `onClose` |
| ImageUploadForm.CandidateTag | src/components/ImageUploadForm.jsx:122 | the trimmed input with its first comma cut out, the text before and after it kept in order, and the whole trimmed input when there is no comma; empty exactly when the trimmed input is empty or a lone comma |
| ImageUploadForm.AddTag | src/components/ImageUploadForm.jsx:122-123 | the existing tags stay as they are; the candidate is appended at the end exactly when it is not empty |
| ImageUploadForm.AddTagKeepsDuplicates | src/components/ImageUploadForm.jsx:123 | a tag already present is appended again |
| ImageUploadForm.RemoveTag | src/components/ImageUploadForm.jsx:138 | no copy of the tag is left; every other tag stays |
| ImageUploadForm.RemoveTagCounts | src/components/ImageUploadForm.jsx:138 | every other tag keeps its number of occurrences |
| ImageUploadForm.RemoveTagSplits | src/components/ImageUploadForm.jsx:138 | removal keeps the remaining tags in their order |
| ImageUploadForm.RemoveAbsentTag | src/components/ImageUploadForm.jsx:138 | removing a tag that is not there changes nothing |
| ImageUploadForm.AddThenRemove | src/components/ImageUploadForm.jsx:120-138 | adding a tag and removing it again leaves what removing it alone leaves |
| ImageUploadForm.SubmitForm | src/components/ImageUploadForm.jsx:36-39 | exactly three fields: the file, or `null` without one; the untrimmed notes; and the tags as JSON text that reads back as the same list |
| ImageUploadForm.GroupEnd | src/components/ImageUploadForm.jsx:26 | the first `;` from a position on, provided no line terminator comes before it |
| ImageUploadForm.MimeSpanFrom | src/components/ImageUploadForm.jsx:26 | the leftmost match of `/:(.*?);/` from a position on, and none when there is none |
| ImageUploadForm.MatchMime | src/components/ImageUploadForm.jsx:26 | the group of the leftmost match of `/:(.*?);/`, and none exactly when there is no match |
| ImageUploadForm.Head | src/components/ImageUploadForm.jsx:25 | the text before the first comma, all of it when there is none |
| ImageUploadForm.SecondPiece | src/components/ImageUploadForm.jsx:25-27 | the text between the first comma and the next, running to the end when there is no second comma; none exactly when there is no comma |
| ImageUploadForm.CodeUnitBytes | src/components/ImageUploadForm.jsx:30 | one byte per character: the character's code modulo 256 |
| ImageUploadForm.DecodedFile | src/components/ImageUploadForm.jsx:24-32 | a file exactly when the header has a `:...;` and `atob` accepts the body; it has the name asked for, a type from the header's leftmost `:...;`, and one byte per decoded character |
| ImageUploadForm.CharCodes | src/components/ImageUploadForm.jsx:28-30 | the count-down loop fills a new array of the decoded length with the characters' codes |
| ImageUploadForm.DataUrlToFile | src/components/ImageUploadForm.jsx:24-32 | the file built from a data URL; none where the header has no `:...;` or `atob` throws |
| Media.BlobType | src/components/ImageUploadForm.jsx:31 | the `File` constructor keeps a printable-ASCII type lower-cased and drops any other type |
| ImageUploadForm.Form.constructor | src/components/ImageUploadForm.jsx:6-10 | no file, notes, tags or preview; camera hidden |
| ImageUploadForm.Form.ChooseFile | src/components/ImageUploadForm.jsx:12-16 | the chosen file and its object URL become the file and the preview |
| ImageUploadForm.Form.HandleCapture | src/components/ImageUploadForm.jsx:18-22 | a decoded capture becomes the file, the data URL the preview, and the camera closes; where decoding throws nothing changes |
| ImageUploadForm.Form.EditDocumentation | src/components/ImageUploadForm.jsx:106 | the notes become the typed text |
| ImageUploadForm.Form.TypeTag | src/components/ImageUploadForm.jsx:116-118 | the tag box holds the typed text; the tags do not change |
| ImageUploadForm.Form.TagKeyDown | src/components/ImageUploadForm.jsx:119-126 | Enter or `,` adds the candidate tag and empties the box whether or not a tag was added; other keys change nothing |
| ImageUploadForm.Form.RemoveTagClick | src/components/ImageUploadForm.jsx:138 | the tags lose every copy of the clicked tag |
| ImageUploadForm.Form.OpenCamera | src/components/ImageUploadForm.jsx:94 | the camera shows |
| ImageUploadForm.Form.CloseCamera | src/components/ImageUploadForm.jsx:63 | the camera hides |
| ImageUploadForm.Form.Submit | src/components/ImageUploadForm.jsx:34-45 | the three-field form of the current file, notes and tags is posted; nothing on the form changes, so edits and a second submit stay possible while the upload is pending |
| ImageUploadForm.Form.Settle | src/components/ImageUploadForm.jsx:47-53 | success clears the file, preview and notes as they are when the upload settles, sent or not, and keeps the tags; failure resets nothing |
| Dashboard.WithoutImage | src/pages/Dashboard.jsx:56 | an image survives a delete exactly when its id differs from the deleted one |
| Dashboard.DeleteCounts | src/pages/Dashboard.jsx:56 | every image with another id keeps its number of occurrences |
| Dashboard.DeleteKeepsOrder | src/pages/Dashboard.jsx:56 | the surviving images keep their order |
| Dashboard.DeleteMissingId | src/pages/Dashboard.jsx:56 | deleting an id no image has changes nothing |
| Dashboard.StatsOf | src/pages/Dashboard.jsx:100-113 | "Total Uploads" is the number of images; "Last Upload" is the first image's `uploadedAt` when truthy, else `N/A` |
| Dashboard.TotalAfterDelete | src/pages/Dashboard.jsx:56 | after a delete, "Total Uploads" drops by the number of images that carried the id |
| Dashboard.LastUploadAfterDelete | src/pages/Dashboard.jsx:111-113 | deleting any image but the first leaves "Last Upload" as it was |
| Dashboard.CaptureFile | src/pages/Dashboard.jsx:35-36 | the capture is a `capture.jpg` file of type `image/jpeg` holding the captured bytes, which passes the upload dialog's type check |
| Dashboard.CaptureForm | src/pages/Dashboard.jsx:38-39 | the capture is posted as the single `image` entry |
| Dashboard.DashboardPage.constructor | src/pages/Dashboard.jsx:10-14 | no images, loading, dialog and camera closed, no toast |
| Dashboard.DashboardPage.BeginFetch | src/pages/Dashboard.jsx:17-18 | the loader shows; nothing else changes |
| Dashboard.DashboardPage.FinishFetch | src/pages/Dashboard.jsx:17-27 | a fetched list replaces the images; a failure keeps the old list and shows the error toast; the loader goes either way |
| Dashboard.DashboardPage.HandleDelete | src/pages/Dashboard.jsx:53-61 | success removes exactly the images with that id and shows the success toast; failure keeps the list and shows the error toast |
| Dashboard.DashboardPage.HandleCapture | src/pages/Dashboard.jsx:33-51 | an uploaded capture shows the success toast and starts a new fetch; any failure shows the error toast; the camera is closed either way |
| Dashboard.DashboardPage.OnUploadComplete | src/pages/Dashboard.jsx:163-169 | a new fetch starts and the success toast shows |
| Dashboard.DashboardPage.SetUploadModal | src/pages/Dashboard.jsx:73 | the upload dialog opens or closes |
| Dashboard.DashboardPage.CloseCamera | src/pages/Dashboard.jsx:176 | the camera hides |
| Dashboard.DashboardPage.DismissToast | src/pages/Dashboard.jsx:183 | the toast goes away |

## Left out

- Rendering, layout and styling: the JSX markup, class names, the loader, images and the ImageModal detail view are not modelled.
- The dashboard's charts and the image table (Graph, PieChart, ImageTable) are not modelled. They only display data.
- Controls disabled while uploading and the upload form's disabled submit button are not modelled. They are markup, not handler logic.
- Camera hardware: `getUserMedia`, drawing to a canvas and `toDataURL` are hardware and browser effects. The data URL and the decoded blob are inputs.
- Toast timers and the Toast component are not modelled. A toast's dismissal is the `DismissToast` event.
- The sign-up page is outside the core.
- The Axios transport is not modelled: sending, timing and progress events. How each request ends is an input. Where a handler returns or records a request, the path and timeout are recorded, not acted on: `UploadModal.Dialog.Submit` records the path and the 60-second timeout, and `Dashboard.DashboardPage.HandleDelete` returns the path it asks for. The fixed paths of the other requests (`/auth/login`, `/images/my-images`, `/images/upload` from the dashboard and the upload form) are not modelled.
- Real cookies and `window.location` are not modelled. Both are plain fields.
- `jwtDecode` and `atob` are parameters. Their internals (Base64, JSON payload parsing) are third-party code.
- Floating-point displays are not modelled: "Storage Used" (`images.length * 0.5`), the upload progress percentage, the size shown in MB, and `Date` locale formatting.
- Concurrency is not modelled. Overlapping requests, and handlers that read stale state through a closure (`handleDelete` filters the list of the render it came from), are outside a sequential model.
- Login.LoginPage.HandleSubmit, Gallery.GalleryPage.FetchImages, Dashboard.DashboardPage.HandleDelete and Dashboard.DashboardPage.HandleCapture: each is one step from the call to the settled request. Events handled while the request is pending, and a second call before the first settles, are not modelled for them.
- Navbar.Initial: upper-cases only ASCII letters, while `toUpperCase` maps all of Unicode and can return two characters. It also takes the first Unicode scalar of the name, while `charAt(0)` takes the first UTF-16 code unit: for a name starting outside the Basic Multilingual Plane (an emoji, say) the source shows half a surrogate pair and the model the whole character.
- ImageUploadForm.CodeUnitBytes: a Dafny `char` is a Unicode scalar, not a UTF-16 code unit. Characters outside the Basic Multilingual Plane are therefore not split into surrogates. `atob` only returns characters below 256, so decoded data is unaffected.
- The upload dialog's reset of the file input element (`fileInputRef`) is a DOM effect and is not modelled.
- The log lines `console.log` and `console.error` write are not modelled.
- The email and password posted by the login page are not modelled. Only the reply matters to the handler.
- ImageUploadForm.Form.ChooseFile: assumes a file was chosen. When the picker is cancelled, `URL.createObjectURL(undefined)` throws after `file` has been set to `undefined`; that path is not modelled.
- Dashboard.DashboardPage.FinishFetch: a body that has `data` but no `images` field makes the source store `undefined` as the list. That case is not modelled.
- Gallery.GalleryPage.ChangePage: the `Pagination` component is not part of this model, so any page number is accepted. The page lemmas assume `p >= 1`. The first page (`src/pages/GalleryPage.jsx:11`) meets that; later pages meet it only if `Pagination` passes values from 1 to the page count. `Gallery.Page` itself follows `slice` for any `p`.
- The error code `NETWORK_ERROR` is an opaque string here, the same as any other code.
- The request interceptor's error handler only re-rejects; there is no request-side failure to model.
