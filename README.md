# Elevideo admin console — client-side API and session layer

This project models the part of the Elevideo admin console that decides
what goes over the wire and what the user sees: the pagination hook, the
shared HTTP client with its token handling, the projects and videos
gateways (including the multipart upload and its own status
classification), the projects and videos hooks with their notifications
and redirects, and the decision rules of the videos, projects, login and
password-reset pages. Rendering is not modelled.

The browser is one `Browser` object (module `Http`): the `token` entry of
localStorage as an optional string, the log of requests handed to
`fetch`, and one ordered log of toasts and navigations. The remote service
is a function from (position in the request log, request) to a reply,
which is either a response or a network failure. A parsed JSON body is a
record of the paths the console reads (`message`, `fieldErrors`,
`data.token`, and the body read as a projects page or as a videos
response). A thrown value is either a plain `{message, status}` object, as
the client and upload throw, or an `Error` instance, which has no status.

Each hook or page that keeps state is a class whose fields are its state
cells. Each command is a method proved equal to a value-level function of
the old state and the old browser (`FetchSpec`, `CreateSpec`,
`UploadSpec`, ...). The lemmas state the properties of those functions.

Modules, one per source file: `Common` (option/result and the JavaScript
string operations the code uses), `Types` (the records and constants of
`src/types`), `Http` (requests, responses, thrown values, the browser),
`Client`, `ProyectosApi`, `VideosApi`, `UsePagination`, `UseProyectos`,
`UseVideos`, `VideosPage`, `ProyectosPage`, `ResetPasswordPage`,
`LoginPage`, `DashboardPage`.

Behaviours of the code that a reader might not expect:

- The client sets `Content-Type: application/json` on every request, not only on requests with a body (src/lib/api/client.ts:17-20).
- On a non-2xx other than 401, the client drops `fieldErrors`. Its fallback message is `"Error: " + statusText`, not `statusText` (src/lib/api/client.ts:48-54).
- The videos hook sets `error` on every failed fetch, a 401 included. For the client's plain-object errors the message is always the default "Error al cargar videos", because those objects are not `Error` instances (src/hooks/api/use-videos.ts:96-98).
- A failed upload or delete in the videos hook only shows a toast. It never sets `error`.
- The projects hook navigates to the login page before its session toast. The videos hook shows the toast first.
- `canGoPrevious` depends only on `currentPage`, so `setTotalPages(0)` does not make it false when the current page is positive.
- `nextPage` with no pages lands on -1.

## Model

| member | source | states |
|---|---|---|
| UsePagination.Pagination.constructor | src/hooks/ui/use-pagination.ts:18-20 | the hook starts at `initialPage` (default 0) with 0 pages |
| UsePagination.Pagination.SetTotalPages | src/hooks/ui/use-pagination.ts:20 | overwrites the page count and keeps the current page |
| UsePagination.Pagination.GoToPage | src/hooks/ui/use-pagination.ts:22-24 | sets the page to exactly the argument, with no clamping, and keeps the page count |
| UsePagination.NextPageOf | src/hooks/ui/use-pagination.ts:27 | the result is at most `totalPages - 1`; it is `current + 1` exactly when `current < totalPages - 1`, and `totalPages - 1` otherwise |
| UsePagination.PreviousPageOf | src/hooks/ui/use-pagination.ts:31 | the result is never negative; it is `current - 1` exactly when `current > 0`, and 0 otherwise |
| UsePagination.Pagination.NextPage | src/hooks/ui/use-pagination.ts:26-28 | moves to `NextPageOf(current, totalPages)` and keeps the page count |
| UsePagination.Pagination.PreviousPage | src/hooks/ui/use-pagination.ts:30-32 | moves to `PreviousPageOf(current)` and keeps the page count |
| UsePagination.Pagination.ResetPage | src/hooks/ui/use-pagination.ts:34-36 | goes to page 0 and keeps the page count, so a second reset changes nothing |
| UsePagination.PredicatesMatchTransitions | src/hooks/ui/use-pagination.ts:38-39 | `canGoNext` holds exactly when `nextPage` moves forward by one, and `canGoPrevious` exactly when `previousPage` moves back by one; with 0 pages at page 0 neither holds |
| UsePagination.BoundariesAreNoOps | src/hooks/ui/use-pagination.ts:26-32 | `nextPage` at the last page and `previousPage` at page 0 change nothing |
| UsePagination.NextWithoutPages | src/hooks/ui/use-pagination.ts:27 | with 0 pages, `nextPage` from any page ≥ 0 lands on -1 |
| UsePagination.NextThenPrevious | src/hooks/ui/use-pagination.ts:26-32 | from `0 <= c < totalPages - 1`, next then previous returns to `c` |
| UsePagination.MovesStayInRange | src/hooks/ui/use-pagination.ts:26-32 | a page inside `[0, totalPages)` stays inside under both moves |
| Client.AuthHeaders | src/lib/api/client.ts:15-21 | always the JSON content type; `Authorization: Bearer <token>` exactly when the stored token is a non-empty string; no other keys |
| Client.MergeHeaders | src/lib/api/client.ts:30-36 | the keys are those of both maps; the caller's value wins on a shared key, and the default is kept otherwise |
| Client.InitOf | src/lib/api/client.ts:72-92 | `get`/`delete` send GET/DELETE with no body; `post`/`put` send POST/PUT with the serialised DTO; no wrapper adds headers |
| Client.Classify | src/lib/api/client.ts:38-69 | 401 first, whatever the body; any other non-2xx carries that status and the body's message or `"Error: " + statusText`, with no field errors; 204 or length "0" gives null; a JSON content type gives the parsed body or a parse error; other text gives itself, and empty text gives null |
| Client.ErrorsCarryStatus | src/lib/api/client.ts:39-54 | a plain error object comes exactly from a non-2xx status, carries that status and a non-empty message, and has no field errors |
| Client.RequestEffect | src/lib/api/client.ts:23-45 | one request is sent, to `baseUrl + endpoint`, with the defaults merged under the caller's headers; no UI event; the token entry is cleared exactly on a 401 and otherwise kept |
| Client.CallHeaders | src/lib/api/client.ts:15-36 | every wrapper call carries the JSON content type, and carries the bearer token exactly when one is stored |
| Client.UnauthorizedClearsToken | src/lib/api/client.ts:39-45 | after a 401 the token entry is empty and the call fails with status 401 and the session-expired message |
| Client.ApiClient.constructor | src/lib/api/client.ts:11-13 | the base URL defaults to the service's address |
| Client.ApiClient.Request | src/lib/api/client.ts:23-70 | the browser after the call and the call's result are those of `RequestSpec` |
| Client.ApiClient.Perform | src/lib/api/client.ts:72-92 | a wrapper call is `request` with that wrapper's init |
| Http.Browser.RemoveToken | src/lib/api/client.ts:40 | only the token entry changes, and it becomes empty |
| Http.Browser.SetToken | src/pages/Login.tsx:42 | only the token entry changes, and it becomes the given token |
| Http.Browser.Fetch | src/lib/api/client.ts:30-36 | the request joins the log, and the reply is the service's answer at that position |
| Http.MessageOr | src/lib/api/videos.api.ts:99 | `data.message` or the fallback; never empty when the fallback is not |
| ProyectosApi.GetAll | src/lib/api/proyectos.api.ts:13-23 | the list operation is a GET through the client |
| ProyectosApi.DefaultListCall | src/lib/api/proyectos.api.ts:19-21 | with every parameter omitted the path is exactly `/projects?page=0&size=20&sortBy=createdAt&sortDirection=DESC` |
| ProyectosApi.GatewayRequests | src/lib/api/proyectos.api.ts:28-51 | `getById` is a GET with no body; `create` POSTs the DTO as JSON to `/projects`; `update` PUTs the DTO; `delete` is a DELETE with no body |
| ProyectosApi.ProjectPathsIdentifyProjects | src/lib/api/proyectos.api.ts:28-51 | read, update and delete of one id address the same path, and distinct ids give distinct paths |
| VideosApi.GetAll | src/lib/api/videos.api.ts:18-37 | the list operation is a GET under `/api/v1/projects/{projectId}/videos?` |
| VideosApi.DefaultVideosCall | src/lib/api/videos.api.ts:19-36 | with only the project given, the query is exactly `page=0&size=20&sortBy=createdAt&sortDirection=DESC`, keys in that order |
| VideosApi.GatewayRequests | src/lib/api/videos.api.ts:42-140 | read and delete send no body; rename PUTs `{ title }` |
| VideosApi.VideoCallsShareResource | src/lib/api/videos.api.ts:42-140 | read, rename and delete of one video address the same path, which lies under its project's list |
| VideosApi.UploadRequest | src/lib/api/videos.api.ts:56-70 | a POST to the service's videos path whose only header is `Authorization: Bearer <token>`, with a multipart body holding the file under `video` and then the title under `title` |
| VideosApi.FieldErrorLine | src/lib/api/videos.api.ts:88 | each rendered entry is non-empty |
| VideosApi.FieldErrorsMessageLists | src/lib/api/videos.api.ts:86-89 | the joined message is empty exactly when there are no field errors, and it contains `field: msg` for every entry |
| VideosApi.ClassifyUpload | src/lib/api/videos.api.ts:72-118 | an error exactly for a non-2xx, with that status and a non-empty message; field errors only on 400; 401 carries the session message; 400 lists the field errors, or else uses the body message or "Error de validación"; 403, 404 and other statuses take the body message or their own default; a 2xx gives the body or `{}` |
| VideosApi.Upload | src/lib/api/videos.api.ts:50-119 | the browser after the call and the result are those of `UploadSpec` |
| VideosApi.UploadNeedsToken | src/lib/api/videos.api.ts:51-54 | without a token nothing is sent or changed, and the upload fails with an `Error` "No autenticado", which has no status |
| VideosApi.UploadSendsOne | src/lib/api/videos.api.ts:56-79 | with a token, exactly the multipart request is sent, with only the bearer header and no content type; no UI event; the token entry is cleared exactly when the result is a 401 error |
| UseProyectos.TransformDropsOnlyUpdatedAt | src/hooks/api/use-proyectos.ts:62-67 | the renaming is undone given `updatedAt`; two wire projects look the same exactly when they differ at most in `updatedAt` |
| UseProyectos.TransformAll | src/hooks/api/use-proyectos.ts:109 | same length and order, each item transformed |
| UseProyectos.ProyectosController.constructor | src/hooks/api/use-proyectos.ts:38-57 | empty list, no error, 0 pages, every flag down; page, size 20 and auto-fetch as given |
| UseProyectos.ProyectosController.HandleApiError | src/hooks/api/use-proyectos.ts:72-92 | hook state and browser become those of `HandleApiErrorSpec` |
| UseProyectos.ErrorPolicy | src/hooks/api/use-proyectos.ts:72-92 | a 401 navigates to login and then shows the session toast with the error's message, leaving the state untouched; any other error sets `error` to the error's own message, or to the default message when that is empty, and shows exactly that message in an "Error" toast; nothing is sent and the token is kept |
| UseProyectos.ProyectosController.FetchProyectos | src/hooks/api/use-proyectos.ts:97-117 | hook state and browser become those of `FetchSpec`, whose success, 401 and other-failure cases are the lemmas below |
| UseProyectos.FetchEffect | src/hooks/api/use-proyectos.ts:97-117 | exactly one list request, with createdAt DESC and the hook's page and size; loading is false afterwards; the mutation flags are untouched |
| UseProyectos.FetchSuccess | src/hooks/api/use-proyectos.ts:100-111 | a page reply replaces the list with its transformed content (same length) and takes its page count; the error is cleared and nothing is shown |
| UseProyectos.FetchUnauthorized | src/hooks/api/use-proyectos.ts:112-116 | a 401 clears the token, keeps the list, leaves `error` cleared, and navigates to login before the toast |
| UseProyectos.ProyectosController.Mutate | src/hooks/api/use-proyectos.ts:122-183 | hook state, browser and re-thrown error are those of `MutationSpec` |
| UseProyectos.ProyectosController.SettleMutation | src/hooks/api/use-proyectos.ts:128-139 | after the call: on success the toast and then the refetch; on failure the error policy, and the same error is returned to re-throw |
| UseProyectos.ProyectosController.CreateProyecto | src/hooks/api/use-proyectos.ts:122-139 | `CreateSpec`: POST of the DTO under `isCreating`, the "Proyecto creado" toast naming the project, a refetch |
| UseProyectos.ProyectosController.UpdateProyecto | src/hooks/api/use-proyectos.ts:144-161 | `UpdateSpec`: PUT under `isUpdating`, then the toast and a refetch |
| UseProyectos.ProyectosController.DeleteProyecto | src/hooks/api/use-proyectos.ts:166-183 | `DeleteSpec`: DELETE under `isDeleting`, then the toast and a refetch |
| UseProyectos.MutationSuccess | src/hooks/api/use-proyectos.ts:122-183 | on success nothing is re-thrown; the call and then exactly one list request are sent; the success toast comes before anything the refetch shows; the flag and `loading` end lowered |
| UseProyectos.MutationFailure | src/hooks/api/use-proyectos.ts:133-179 | on failure the very same error is re-thrown after the error policy; nothing more is sent; the flag ends lowered |
| UseProyectos.ProyectosController.AutoFetch | src/hooks/api/use-proyectos.ts:186-190 | fetches exactly when auto-fetch is on, and otherwise changes nothing |
| UseVideos.FileExtension | src/hooks/api/use-videos.ts:135 | from the last dot on when there is one; with no dot, `slice(-1)` keeps one character |
| UseVideos.ExtensionOfSuffix | src/hooks/api/use-videos.ts:135 | a name ending in a dot and dot-free text has that suffix, lower-cased, as its extension |
| UseVideos.ValidateFile | src/hooks/api/use-videos.ts:133-156 | valid exactly when the MIME type or the extension is allowed and the size is at most 200 MiB; the format is checked first; each message starts with the file name |
| UseVideos.SizeLimitAndCase | src/hooks/api/use-videos.ts:148-153 | exactly 200 MiB passes and one byte more is refused with the size message; an upper-case allowed extension passes whatever the MIME type |
| UseVideos.TitleFromName | src/hooks/api/use-videos.ts:188 | the title is a prefix of the name; when it is shorter, the rest is a dot followed by at least one character that is neither a dot nor a slash; when it is the whole name, no such suffix exists |
| UseVideos.ExtensionAtUnique | src/hooks/api/use-videos.ts:188 | the pattern matches in at most one place |
| UseVideos.TitleOfSuffixedName | src/hooks/api/use-videos.ts:188 | `base.ext` with a dot-free, slash-free `ext` gives back `base` |
| UseVideos.VideosController.constructor | src/hooks/api/use-videos.ts:54-68 | empty list, no error, 0 pages and elements, flags down |
| UseVideos.VideosController.FetchVideos | src/hooks/api/use-videos.ts:73-119 | hook state and browser become those of `FetchSpec` |
| UseVideos.FetchWithoutProject | src/hooks/api/use-videos.ts:74-77 | without a project only `error` changes, to "No hay proyecto seleccionado"; nothing is sent and loading is untouched |
| UseVideos.FetchSuccess | src/hooks/api/use-videos.ts:91-95 | videos and both totals come from `data`; the error is cleared; loading ends false; nothing is shown |
| UseVideos.ListFailures | src/hooks/api/use-videos.ts:80-95 | a network failure throws fetch's TypeError; a non-2xx throws the client's plain object; an ok body that is not JSON throws the parse error; any other ok reply that is not a videos response throws the TypeError of reading `data.content` |
| UseVideos.FetchFailure | src/hooks/api/use-videos.ts:96-114 | any failure other than a 401 sets `error` to an `Error` instance's own message, or to "Error al cargar videos" for a plain object; it shows one destructive "Error al cargar videos" toast with that message; the token is kept, exactly one request is sent, and loading ends false |
| UseVideos.FetchUnauthorized | src/hooks/api/use-videos.ts:96-109 | a 401 sets `error` to the default message, clears the token, and shows the session toast before going to login |
| UseVideos.FetchKeepsLog | src/hooks/api/use-videos.ts:73-119 | a fetch only appends to the request log, ends with loading lowered when it runs, and leaves the upload and delete flags alone |
| UseVideos.VideosController.ReportFailure | src/hooks/api/use-videos.ts:200-224 | a 401 gives the session toast and then login; anything else gives a toast with the error's message |
| UseVideos.VideosController.UploadVideo | src/hooks/api/use-videos.ts:161-230 | hook state and browser become those of `UploadSpec` |
| UseVideos.UploadRefusedSendsNothing | src/hooks/api/use-videos.ts:163-181 | without a project or with an invalid file, nothing is sent, the state is unchanged and exactly one destructive toast is shown |
| UseVideos.UploadSendsTitledFile | src/hooks/api/use-videos.ts:183-227 | a valid file is sent as the multipart upload titled by the name without its extension; `isUploading` ends false, and a lowered loading flag stays lowered |
| UseVideos.VideosController.DeleteVideo | src/hooks/api/use-videos.ts:235-280 | hook state and browser become those of `DeleteSpec` |
| UseVideos.UploadOutcome | src/hooks/api/use-videos.ts:191-227 | on success the "Video subido" toast comes first, then exactly one refetch of the list, and `isUploading` and `loading` end false; on failure nothing more is sent, nothing is re-thrown, only `isUploading` changes (to false), and the UI shows the session toast then login for a 401, or one destructive "Error al subir video" toast carrying the error's message otherwise |
| UseVideos.DeleteOutcome | src/hooks/api/use-videos.ts:242-277 | on success the "Video eliminado" toast comes first, then exactly one refetch of the list, and `isDeleting` and `loading` end false; on failure nothing more is sent, nothing is re-thrown, only `isDeleting` changes (to false), and the UI shows the session toast then login for a 401, or one destructive "Error al eliminar video" toast carrying the error's message otherwise |
| UseVideos.DeleteLowersFlag | src/hooks/api/use-videos.ts:239-277 | with a project, the DELETE is the next request; `isDeleting` ends false whatever the reply |
| UseVideos.DeleteUnauthorized | src/hooks/api/use-videos.ts:251-262 | a 401 on delete clears the token, shows the session toast, goes to login, and lowers the flag |
| UseVideos.VideosController.DownloadVideo | src/hooks/api/use-videos.ts:285-294 | one toast naming the video |
| UseVideos.VideosController.AutoFetch | src/hooks/api/use-videos.ts:124-128 | fetches exactly when auto-fetch is on and a project is set |
| VideosPage.JsRem | src/pages/admin/Videos.tsx:41 | JavaScript's `%`: the Euclidean remainder on non-negative operands, and strictly inside `(-b, b)` |
| VideosPage.PadStart2 | src/pages/admin/Videos.tsx:42 | at least two characters, ending with the input |
| VideosPage.SecondsField | src/pages/admin/Videos.tsx:41-42 | the seconds field is exactly two digits and reads back as the seconds |
| VideosPage.FormatDurationRoundTrip | src/pages/admin/Videos.tsx:38-43 | for a non-negative duration the text is minutes, a colon and exactly two digits below 60, and `m * 60 + ss` equals `millis div 1000` |
| VideosPage.EstadoTexto | src/pages/admin/Videos.tsx:94-105 | an unknown status is shown as itself |
| VideosPage.EstadoColor | src/pages/admin/Videos.tsx:81-92 | an unknown status gets the slate default |
| VideosPage.KnownStatusesDistinct | src/pages/admin/Videos.tsx:81-105 | the three known statuses have pairwise distinct labels and classes, none of them the default class or the raw status |
| VideosPage.OfferedActions | src/pages/admin/Videos.tsx:251-278 | delete is always offered; trim and download exactly for "UPLOADED" |
| VideosPage.UploadButtonDisabled | src/pages/admin/Videos.tsx:134 | enabled only with a project, while not uploading and not loading |
| VideosPage.RefusedSelectionSendsNothing | src/pages/admin/Videos.tsx:57-59 | a selection whose files all fail validation sends nothing, changes no hook state and shows one toast per file |
| VideosPage.VideosPageView.HandleUpload | src/pages/admin/Videos.tsx:52-68 | nothing for an absent or empty selection; otherwise the uploads of the files one after another in order, then the input cleared and page 0 |
| VideosPage.VideosPageView.HandleRecortar | src/pages/admin/Videos.tsx:70-75 | exactly one notification |
| VideosPage.VideosPageView.HandleEliminar | src/pages/admin/Videos.tsx:77-79 | the hook's delete |
| VideosPage.VideosPageView.SyncTotalPages | src/pages/admin/Videos.tsx:33-35 | the pager takes the hook's page count and keeps its page |
| ProyectosPage.HasNameIffNotBlank | src/pages/admin/Proyectos.tsx:55 | a name passes the guard exactly when it is not all whitespace |
| ProyectosPage.ProyectosPageView.constructor | src/pages/admin/Proyectos.tsx:37-44 | empty forms, no project being edited, both modals closed |
| ProyectosPage.ProyectosPageView.SyncTotalPages | src/pages/admin/Proyectos.tsx:33-35 | the pager takes the hook's page count and keeps its page |
| ProyectosPage.ProyectosPageView.HandleNuevoProyecto | src/pages/admin/Proyectos.tsx:47-50 | empty create form, create modal open, the edit state untouched |
| ProyectosPage.ProyectosPageView.HandleCrearProyecto | src/pages/admin/Proyectos.tsx:52-71 | a blank name changes nothing and sends nothing; otherwise `CreateSpec`, then on success the modal closed, the form reset and page 0, and on failure modal, form and page as they were |
| ProyectosPage.ProyectosPageView.SubmitCreate | src/pages/admin/Proyectos.tsx:58-70 | the create call and what follows it, as above |
| ProyectosPage.ProyectosPageView.HandleCloseModal | src/pages/admin/Proyectos.tsx:73-78 | ignored while creating; otherwise the modal closes and the form resets |
| ProyectosPage.ProyectosPageView.HandleEditClick | src/pages/admin/Proyectos.tsx:80-84 | copies the project's id, name and description into the edit state and opens the edit modal |
| ProyectosPage.ProyectosPageView.HandleEditProyecto | src/pages/admin/Proyectos.tsx:86-105 | ignored for a blank name or with no project being edited; otherwise `UpdateSpec`, then on success the modal closes and the edit state clears, and on failure it is kept |
| ProyectosPage.ProyectosPageView.SubmitEdit | src/pages/admin/Proyectos.tsx:92-104 | the update call and what follows it, as above |
| ProyectosPage.ProyectosPageView.HandleCloseEditModal | src/pages/admin/Proyectos.tsx:107-113 | ignored while updating; otherwise the modal closes and the edit state clears |
| ProyectosPage.ProyectosPageView.HandleEliminar | src/pages/admin/Proyectos.tsx:115-122 | `DeleteSpec`, and page 0 only on success |
| ProyectosPage.ProyectosPageView.HandlePaginaAnterior | src/pages/admin/Proyectos.tsx:124-126 | the pager's previous page |
| ProyectosPage.ProyectosPageView.HandlePaginaSiguiente | src/pages/admin/Proyectos.tsx:128-130 | the pager's next page |
| ResetPasswordPage.ResetGuard | src/pages/ResetPassword.tsx:23-48 | passes exactly with a non-empty token, matching passwords and at least 6 characters; the first failing check in the order token, match, length is the one reported |
| ResetPasswordPage.GuardOrder | src/pages/ResetPassword.tsx:23-48 | with every check failing the token message wins; then the mismatch; then the length; exactly 6 characters passes |
| ResetPasswordPage.ResetRequest | src/pages/ResetPassword.tsx:50-62 | a POST of `{token, newPassword}` with only a JSON content type |
| ResetPasswordPage.ResetOutcome | src/pages/ResetPassword.tsx:64-92 | a network failure or a body that is not JSON gives the connection-error toast; a non-ok JSON reply gives an "Error" toast with `data.message` or "No se pudo restablecer la contraseña"; an ok JSON reply gives the success toast; only the success toast is not destructive |
| ResetPasswordPage.SubmitEffect | src/pages/ResetPassword.tsx:20-93 | a refused submit sends nothing, keeps `loading` and shows its message; an accepted one sends exactly the reset request, ends with `loading` false and shows the toast `ResetOutcome` gives for the service's reply; the token entry is never touched |
| ResetPasswordPage.ResetPasswordForm.HandleSubmit | src/pages/ResetPassword.tsx:20-93 | loading flag and browser become those of `SubmitSpec` |
| LoginPage.LoginRequest | src/pages/Login.tsx:22-28 | a POST of the credentials with only a JSON content type |
| LoginPage.TokenStoredOnlyOnSuccess | src/pages/Login.tsx:30-57 | exactly one request; the token entry changes only for an ok JSON reply and then holds that reply's token; a non-empty token in such a reply is stored and an empty one stores nothing; only such a reply welcomes and then navigates to "/homepage"; a non-ok JSON reply shows `data.message` or "Las credenciales son inválidas", and a network failure or a body that is not JSON shows the connection error, each as the one toast and with the token kept |
| LoginPage.LoginForm.HandleSubmit | src/pages/Login.tsx:17-61 | browser becomes that of `SubmitSpec`, and `loading` ends false |
| DashboardPage.HandleLogout | src/pages/Dashboard.tsx:15-22 | the token entry is cleared, then the logout toast, then the move to "/login" |

## Left out

- Real `fetch`, JSON parsing and serialisation, `FormData` and `URLSearchParams` encoding are abstract. A request body is a datatype. A query string is plain concatenation with no percent-encoding.
- Async interleaving is not modelled. Each command runs to completion before the next one starts, so out-of-order completions are not covered.
- The `page` of each hook is fixed when the hook is built. The refetch that React runs when the page changes is not modelled. The mount effect is an explicit `AutoFetch` call.
- The DOM download of a video (src/lib/api/videos.api.ts:145-154) is not modelled; `DownloadVideo` only shows its toast.
- `getFileSize` and `toLocaleDateString` are left out, because they are floating point and locale formatting.
- Timers are left out: the heartbeat in src/hooks/use-api-heartbeat.ts, and the delayed redirects after a reset (src/pages/ResetPassword.tsx:80-82) and after email verification.
- Register, VerifyEmail, ForgotPassword, Homepage, AuthLayout, App, NotFound and the index files are routing, layout or plain request-then-toast code, and are not part of this model.
- `trim`, `toLowerCase` and string length work on ASCII characters here, with no Unicode whitespace or case folding.
- A body that is not shaped like a projects page or a videos response becomes a fixed TypeError message (`MissingContent`, `MissingData`). The model does not reproduce the engine's exact wording.
- A response that is not JSON is modelled with fixed error texts for the parse failure and the network failure. The texts the browser produces are not reproduced.
- `fieldErrors` is an ordered list of entries. JavaScript's `Object.entries` puts integer-like keys first, and that ordering is not modelled.
- A project id is a string, and a video id and a project id in numeric position are integers rendered as a template literal renders them.
- `console.error` logging is left out.
- A JSON body that parses to `null` or to a value that is not an object is not modelled. A parsed body is always an object here. In the source, reading `.message` of `null` throws a TypeError, so the client (src/lib/api/client.ts:49-51), the upload (src/lib/api/videos.api.ts:82-118), the login page (src/pages/Login.tsx:30-41) and the reset page (src/pages/ResetPassword.tsx:64-66) would report the engine's TypeError text instead of their own messages.
- ProyectosApi.GetAll: its contract says only that it is a GET. The exact default path is stated in `DefaultListCall`, because string-literal equalities are proved there.
- VideosApi.GetAll: its contract says only that it is a GET under the project's videos path. The default query is stated in `DefaultVideosCall`.
- VideosPage.EstadoTexto and VideosPage.EstadoColor: their contracts cover unknown statuses only. The known statuses are covered by `KnownStatusesDistinct`, and the exact labels are the function bodies.
