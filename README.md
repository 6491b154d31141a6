# News view-model of WordPressUWP, modelled in Dafny

The news page of the WordPressUWP app is driven by `NewsViewModel`. Beneath its
UI wiring it is a small sequential state machine:

- a pending deep-link post id (`_postid`, 0 for none), taken from the page's
  navigation parameter;
- the page's current visual state (`_currentState`), whose name decides whether
  a post is shown by navigating to the detail page (`"NarrowState"`) or inline;
- the handle of the toolkit's incremental post collection (`Posts`), of which
  the view-model reads the loaded posts and the loading flag;
- the inline comment session: `SelectedPost`, `Comments`, `CommentInput`,
  `CommentReply` and `IsCommentsLoading`.

The model is the class `ViewModels.NewsViewModel` (file `news_view_model.dfy`)
with one field per piece of state. Each operation is a method whose `modifies`
clause names exactly the fields the source assigns, and whose postconditions say
what every one of them is afterwards. References that may be null are
`Option` values. The `Comments` collection, which the source clears in place or
replaces, is an `Option<seq<…>>` field that the methods reassign.

The collaborators are not called. Each answer they give is a parameter of the
operation that asks for it:
- whether the user is authenticated;
- the comment the WordPress service created, or None for null;
- the comment list it fetched, or None for null;
- whether the collection's refresh threw;
- the outcome of parsing the navigation parameter as an int.

The three service answers are `Outcome` values: `Returned(v)`, or `Threw` when
the awaited call raises an exception. The source catches only the exception of
the refresh. Any other exception ends the awaiting method at that point,
whatever state it has reached:
- `GetComments` and `PostComment` return a task; the model reports the fault to
  their caller as the `threw` out-parameter.
- `ShowPost` and `RefreshComments` are `async void`, so the fault is raised on
  the UI context; the ghost counter `unobservedFaults` records it.

What the view-model sends out is appended to three ghost logs:
- `notifications`: in-app notification texts;
- `navigations`: page key and post;
- `calls`: refresh requests, comment fetches (with the post id) and comment
  posts (with post id, text and reply-to id).

The loaded posts change only when the toolkit's collection loads a page. The
collection calls `PostsOnEndLoading` when a load ends. In the scenarios that
step is played by assigning `vm.posts`.

The deep-link search is the pure function `PostSearch.FirstWithId`. It is proved
to find the first post, in collection order, that carries the id. Lemmas say
what the search does as pages are appended. Once the target is loaded, every
later search finds the same post. While the target is missing from the loaded
posts, the search over the grown collection finds what it finds in the new page.

`NewsScenarios` drives whole sessions through the view-model's contracts: a deep
link resolved on the second page; the same post shown again on a later page; a
failed comment post followed by a retry; a layout switch between two clicks; a
comment fetch that throws.

Behaviour of the code that the model keeps as written:
- The pending id is never cleared, neither when it matches nor when the feed is
  exhausted. Every end-of-load after the match shows the post again. In the
  wide state that drops a reply target the user picked in between and reloads
  the comments (`NewsScenarios.LaterPageShowsDeepLinkAgain`).
- Nothing is deduplicated by id, and comments are not ordered by the
  view-model: the list is taken as the service returns it.
- There is no staleness guard on a comment reload.
- A failed comment fetch (null list) raises no notification. It leaves an
  existing list empty, or no list at all.
- A comment fetch that throws leaves `IsCommentsLoading` set, the list emptied
  and the reply target cleared
  (`NewsScenarios.CommentFetchThrowsLeavesLoading`). An authentication check or
  comment post that throws ends `PostComment` with no notification.
- On a successful post, the success notification comes before the comment
  reload. The reply target is cleared by the reload and once more afterwards.

## Model

| member | source | states |
|---|---|---|
| `PostSearch.FirstWithId` | WordPressUWP/ViewModels/NewsViewModel.cs:207 | finds a post exactly when some loaded post carries the id; the post found carries the id and stands at a position before which no post carries it (the first match in collection order) |
| `PostSearch.FirstWithIdKeptByAppend` | WordPressUWP/ViewModels/NewsViewModel.cs:204-209 | once a post with the id is loaded, appending any page leaves the post the search finds unchanged, so later end-of-load events resolve to the same post |
| `PostSearch.FirstWithIdSkipsMissingPrefix` | WordPressUWP/ViewModels/NewsViewModel.cs:204-209 | when no loaded post carries the id, the search over loaded posts plus a new page gives the same answer as the search over the new page alone |
| `ViewModels.NewsViewModel.constructor` | WordPressUWP/ViewModels/NewsViewModel.cs:110-114 | a new view-model has no pending id, no visual state, no collection, no selection, no comment list, input or reply target, is not loading comments and has sent nothing |
| `ViewModels.NewsViewModel.Init` | WordPressUWP/ViewModels/NewsViewModel.cs:116-131 | a non-empty string parameter makes the parsed id the pending deep link and asks for a refresh (under the refresh guard); any other parameter leaves the pending id as it was; the visual state is then stored and the collection set up if missing |
| `ViewModels.NewsViewModel.RefreshPosts` | WordPressUWP/ViewModels/NewsViewModel.cs:133-147 | a refresh is requested exactly when the collection exists, is not loading and holds at least one post; otherwise nothing is requested or notified; a refresh that throws adds exactly one "Refresh failed" notification and nothing else escapes |
| `ViewModels.NewsViewModel.GetComments` | WordPressUWP/ViewModels/NewsViewModel.cs:149-164 | always ends with no reply target and one fetch requested for the post id; a fetched list becomes the comment list exactly; a null answer or an exception leaves an existing list empty and no list absent; the loading flag ends cleared, except after an exception, which leaves it set and is reported as a faulted task |
| `ViewModels.NewsViewModel.PostComment` | WordPressUWP/ViewModels/NewsViewModel.cs:166-190 | unauthenticated: no request, input, reply target and comments untouched, one "You have to log in first." notification; an authentication check that throws: the same with no notification and a faulted task; authenticated: sends the input for the selected post with reply-to id 0 without a reply target and the target's id otherwise; on success one success notification, empty input, no reply target and the comments reloaded for the selected post; on a null answer one "something went wrong..." notification and input, reply target and comments untouched; a post call that throws: the same with no notification and a faulted task; a reload that throws after a success: the task faults with the reload's partial state |
| `ViewModels.NewsViewModel.LoadDataAsync` | WordPressUWP/ViewModels/NewsViewModel.cs:192-200 | always stores the given visual state; creates an empty idle collection only when there is none, and otherwise keeps the existing one with its posts (idempotent set-up) |
| `ViewModels.NewsViewModel.PostsOnEndLoading` | WordPressUWP/ViewModels/NewsViewModel.cs:202-211 | with no pending id, or no loaded post carrying it, nothing changes and nothing is sent; otherwise the first loaded post carrying the id is shown as `ShowPost` shows it; the pending id is left as it was |
| `ViewModels.NewsViewModel.OnStateChanged` | WordPressUWP/ViewModels/NewsViewModel.cs:213-216 | the new visual state becomes the current one |
| `ViewModels.NewsViewModel.OnItemClick` | WordPressUWP/ViewModels/NewsViewModel.cs:218-224 | a clicked post is shown as `ShowPost` shows it; a click on anything else changes nothing and sends nothing |
| `ViewModels.NewsViewModel.ShowPost` | WordPressUWP/ViewModels/NewsViewModel.cs:226-237 | in the state named "NarrowState": exactly one navigation to the detail page with the post as parameter, selection, comments, reply target, loading flag and requests untouched; in any other state: the post becomes the selection and its comments are reloaded for its id, with no navigation, and an exception from the fetch escapes onto the UI context |
| `ViewModels.NewsViewModel.RefreshComments` | WordPressUWP/ViewModels/NewsViewModel.cs:239-242 | reloads the comments of the selected post, with the outcome `GetComments` states; an exception from the fetch escapes onto the UI context |
| `ViewModels.NewsViewModel.CommentReplyUnset` | WordPressUWP/ViewModels/NewsViewModel.cs:254-257 | the reply target is cleared and nothing else changes |
| `NewsScenarios.DeepLinkResolvedOnSecondPage` | WordPressUWP/ViewModels/NewsViewModel.cs:116-131 | a deep link missing from the first page and present in the second selects nothing after the first load and, in the wide state, selects the first matching post of the second page after the second |
| `NewsScenarios.LaterPageShowsDeepLinkAgain` | WordPressUWP/ViewModels/NewsViewModel.cs:202-211 | after the deep-linked post is shown, a later end-of-load keeps the pending id, shows the same post again, drops a reply target picked in between and replaces the comment list with the new fetch |
| `NewsScenarios.PostCommentRetry` | WordPressUWP/ViewModels/NewsViewModel.cs:166-190 | a rejected post keeps the draft and the reply target; the accepted retry empties the draft, clears the reply target and shows the fetched thread |
| `NewsScenarios.LayoutSwitchRoutesNextSelection` | WordPressUWP/ViewModels/NewsViewModel.cs:213-237 | a click in the narrow state leaves the inline selection empty; after the switch to the wide state the next click selects its post inline |
| `NewsScenarios.CommentFetchThrowsLeavesLoading` | WordPressUWP/ViewModels/NewsViewModel.cs:149-164 | a post shown inline whose comment fetch throws stays selected, with the loading flag set, the previous thread emptied and the reply target dropped |

## Left out

- Sharing (`DataTransferManager`, `DataTransferManager_DataRequested`, `SharePost`, HTML decoding of the title) and `OpenInBrowser`: these are platform I/O.
- The toolkit's `IncrementalLoadingCollection` and its `RefreshAsync`: paging, cursors, appending pages and the reload itself are foreign code. The model keeps only the loaded posts and the loading flag the view-model reads. A refresh is recorded as a request, and the posts it loads are not modelled. Wiring `OnEndLoading` to `PostsOnEndLoading` is implicit: that method is what the collection calls.
- The WordPress service (`IsUserAuthenticated`, `PostComment`, `GetCommentsForPost`), including how it threads and orders comments: its answers are parameters.
- `Int32.TryParse`: its outcome (the parsed id, or 0 when parsing fails) is the `parsedId` parameter. The model does not relate it to the parameter string.
- Navigation parameters that are not strings: they are the `None` case of `Init`'s parameter.
- Asynchrony: `async`/`await` interleavings, and overlapping comment loads racing each other. Every method runs to completion, or to an exception, before the next one starts. So `IsCommentsLoading` is only seen true after a comment fetch threw.
- What the app does with an exception raised on the UI context is not modelled. The model only counts the exception. Its handler is not part of this model.
- `ServiceLocator`, the lazily built `ICommand` properties and the property-change events raised by the setters: framework plumbing. A navigation is a log entry.
- `Debug.WriteLine` tracing.
- A null visual state given to `LoadDataAsync` or `OnStateChanged` is not modelled: the parameter is a value.
- ShowPost, OnItemClick, RefreshComments, PostComment, PostsOnEndLoading: where the source would throw a null-reference exception, a precondition excludes the case. That is a missing visual state in `ShowPost` and, for a clicked post, in `OnItemClick`, a missing selected post in `RefreshComments` and (when authenticated) in `PostComment`, and a missing collection in `PostsOnEndLoading` with a pending id.
- Post ids are 32-bit in the source. Here they are unbounded integers, which only ever get compared for equality.
- The detail page key is taken as `WordPressUWP.ViewModels.NewsDetailViewModel`, the full name of `NewsDetailViewModel` in the view-model's namespace. The file declaring `NewsDetailViewModel` is not part of this model.
