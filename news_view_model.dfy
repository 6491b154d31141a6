/**
 * The news page's view-model: a sequential state machine over the pending
 * deep-link id, the layout state, the post collection handle, the selected
 * post and its comment session.
 *
 * The collaborators are not called. What they answer is a parameter of the
 * operation that asks them: whether the user is authenticated, the comment the
 * service created (None for null), the comment list it fetched (None for null),
 * each of these as an `Outcome` since the awaited call may throw instead, and
 * whether the collection's refresh threw. What the view-model tells them is
 * appended to ghost logs: in-app notifications, navigations, service requests.
 *
 * Only the refresh is wrapped in a try. An exception from a service call ends
 * the awaiting method where it stands: an `async Task` method (`GetComments`,
 * `PostComment`) reports it to its caller as `threw`; an `async void` method
 * (`ShowPost`, `RefreshComments`) has no caller to report to, so the exception
 * is raised on the UI context, counted in `unobservedFaults`.
 */
module ViewModels {
  import opened Models
  import opened PostSearch

  /** Names of the page's two adaptive visual states. */
  const NarrowStateName := "NarrowState"
  const WideStateName := "WideState"

  /** Navigation key of the post detail page (the full type name of its view-model). */
  const DetailPageKey := "WordPressUWP.ViewModels.NewsDetailViewModel"

  /** The in-app notifications the view-model raises. */
  const RefreshFailedMessage := "Refresh failed"
  const PostedMessage := "successfully posted comment"
  const PostFailedMessage := "something went wrong..."
  const LoginRequiredMessage := "You have to log in first."

  datatype VisualState = VisualState(name: string)

  /**
   * What the view-model reads of the toolkit's incremental post collection:
   * the posts loaded so far, in load order, and whether a load is under way.
   */
  datatype PostCollection = PostCollection(items: seq<Post>, isLoading: bool)

  /** A request to the navigation service: page key and parameter. */
  datatype Navigation = Navigation(pageKey: string, parameter: Post)

  /** A request to a collaborator that returns data or may fail. */
  datatype Call =
    | RefreshRequest
    | FetchComments(postId: int)
    | SendComment(postId: int, content: Option<string>, replyTo: int)

  class NewsViewModel {
    /** Post id of a pending deep link; 0 when there is none. */
    var postId: int
    /** The page's current visual state; None until the page hands one over. */
    var currentState: Option<VisualState>
    /** The incremental post collection; None until it is set up. */
    var posts: Option<PostCollection>
    var selectedPost: Option<Post>
    var comments: Option<seq<CommentThreaded>>
    var commentInput: Option<string>
    /** The comment being replied to, if any. */
    var commentReply: Option<Comment>
    var isCommentsLoading: bool

    ghost var notifications: seq<string>
    ghost var navigations: seq<Navigation>
    ghost var calls: seq<Call>
    /** Exceptions an `async void` method let escape onto the UI context. */
    ghost var unobservedFaults: nat

    /** The collection is only set up together with a visual state. */
    ghost predicate Valid()
      reads this
    {
      posts.Some? ==> currentState.Some?
    }

    predicate InNarrowState()
      reads this
    {
      currentState.Some? && currentState.value.name == NarrowStateName
    }

    /** The guard of a refresh: a collection that exists, is idle and holds posts. */
    predicate CanRefresh()
      reads this
    {
      posts.Some? && !posts.value.isLoading && |posts.value.items| > 0
    }

    /** The post a deep link resolves to right now, if any. */
    function DeepLinkTarget(): Option<Post>
      reads this
      requires postId != 0 ==> posts.Some?
    {
      if postId == 0 then None else FirstWithId(posts.value.items, postId)
    }

    /** The comment session and the request log are as they were. */
    twostate predicate SessionUnchanged()
      reads this
    {
      && selectedPost == old(selectedPost)
      && comments == old(comments)
      && commentReply == old(commentReply)
      && isCommentsLoading == old(isCommentsLoading)
      && calls == old(calls)
      && unobservedFaults == old(unobservedFaults)
    }

    /**
     * The outcome of a refresh attempt: a refresh is requested exactly when
     * `requested`, and a failed one leaves one "Refresh failed" notification.
     */
    twostate predicate RefreshOutcome(requested: bool, refreshThrows: bool)
      reads this
    {
      && calls == old(calls) + (if requested then [RefreshRequest] else [])
      && notifications == old(notifications) + (if requested && refreshThrows then [RefreshFailedMessage] else [])
    }

    /** The fetch returned a list (not null, no exception). */
    static predicate GotList(fetched: Outcome<Option<seq<CommentThreaded>>>) {
      fetched.Returned? && fetched.value.Some?
    }

    /**
     * The outcome of a comment reload for post `id`, after the requests in
     * `callsBefore`: no reply target and the fetch requested; a returned list
     * becomes the comment list; a null answer or an exception leaves an
     * existing list emptied; the loading flag is left set exactly when the
     * fetch threw.
     */
    twostate predicate CommentsReloaded(id: int, fetched: Outcome<Option<seq<CommentThreaded>>>, callsBefore: seq<Call>)
      reads this
    {
      && commentReply == None
      && isCommentsLoading == fetched.Threw?
      && calls == callsBefore + [FetchComments(id)]
      && (GotList(fetched) ==> comments == fetched.value)
      && (!GotList(fetched) ==> comments == if old(comments).Some? then Some([]) else None)
    }

    /**
     * The outcome of showing `post`: in the narrow state one navigation to the
     * detail page and nothing else; in any other state the post is selected
     * inline and its comments are reloaded, and an exception from the fetch
     * escapes onto the UI context.
     */
    twostate predicate PostShown(post: Post, fetched: Outcome<Option<seq<CommentThreaded>>>)
      reads this
    {
      if old(InNarrowState()) then
        && navigations == old(navigations) + [Navigation(DetailPageKey, post)]
        && SessionUnchanged()
      else
        && navigations == old(navigations)
        && selectedPost == Some(post)
        && CommentsReloaded(post.id, fetched, old(calls))
        && unobservedFaults == old(unobservedFaults) + (if fetched.Threw? then 1 else 0)
    }

    constructor ()
      ensures Valid()
      ensures postId == 0 && currentState.None? && posts.None?
      ensures selectedPost.None? && comments.None? && commentInput.None? && commentReply.None?
      ensures !isCommentsLoading
      ensures notifications == [] && navigations == [] && calls == [] && unobservedFaults == 0
    {
      postId := 0;
      currentState := None;
      posts := None;
      selectedPost := None;
      comments := None;
      commentInput := None;
      commentReply := None;
      isCommentsLoading := false;
      notifications := [];
      navigations := [];
      calls := [];
      unobservedFaults := 0;
    }

    /**
     * Page navigated to. `parameter` is the navigation parameter when it is a
     * string; `parsedId` is what parsing it as an int gives (0 on failure).
     * A non-empty one becomes the pending deep link and triggers a refresh.
     */
    method Init(state: VisualState, parameter: Option<string>, parsedId: int, refreshThrows: bool)
      requires Valid()
      modifies this`postId, this`currentState, this`posts, this`notifications, this`calls
      ensures Valid()
      ensures postId == if parameter.Some? && parameter.value != "" then parsedId else old(postId)
      ensures RefreshOutcome(parameter.Some? && parameter.value != "" && old(CanRefresh()), refreshThrows)
      ensures currentState == Some(state)
      ensures posts == if old(posts).None? then Some(PostCollection([], false)) else old(posts)
    {
      if parameter.Some? && parameter.value != "" {
        postId := parsedId;
        RefreshPosts(refreshThrows);
      }
      LoadDataAsync(state);
    }

    /** Asks the collection to reload, only when it exists, is idle and non-empty; a failure is absorbed. */
    method RefreshPosts(refreshThrows: bool)
      modifies this`notifications, this`calls
      ensures RefreshOutcome(old(CanRefresh()), refreshThrows)
    {
      if CanRefresh() {
        calls := calls + [RefreshRequest];
        if refreshThrows {
          notifications := notifications + [RefreshFailedMessage];
        }
      }
    }

    /**
     * Reloads the comments of post `id`; `fetched` is the service's answer.
     * `threw` is whether the returned task faulted.
     */
    method GetComments(id: int, fetched: Outcome<Option<seq<CommentThreaded>>>) returns (threw: bool)
      modifies this`commentReply, this`isCommentsLoading, this`comments, this`calls
      ensures CommentsReloaded(id, fetched, old(calls))
      ensures threw == fetched.Threw?
    {
      commentReply := None;
      isCommentsLoading := true;
      if comments.Some? {
        comments := Some([]);
      }
      calls := calls + [FetchComments(id)];
      if fetched.Threw? {
        return true;
      }
      if fetched.value.Some? {
        comments := fetched.value;
      }
      isCommentsLoading := false;
      return false;
    }

    /**
     * Posts the comment input as a comment on the selected post, replying to
     * the reply target if there is one. `authenticated` and `created` are the
     * service's answers; `fetched` is its answer to the comment reload.
     * `threw` is whether the returned task faulted.
     */
    method PostComment(authenticated: Outcome<bool>, created: Outcome<Option<Comment>>,
                       fetched: Outcome<Option<seq<CommentThreaded>>>) returns (threw: bool)
      requires authenticated == Returned(true) ==> selectedPost.Some?
      modifies this`commentInput, this`commentReply, this`isCommentsLoading, this`comments
      modifies this`calls, this`notifications
      ensures authenticated != Returned(true) ==>
        && threw == authenticated.Threw?
        && notifications == old(notifications) + (if threw then [] else [LoginRequiredMessage])
        && calls == old(calls)
        && commentInput == old(commentInput) && commentReply == old(commentReply)
        && comments == old(comments) && isCommentsLoading == old(isCommentsLoading)
      ensures authenticated == Returned(true) ==>
        var sent := SendComment(selectedPost.value.id, old(commentInput),
                                if old(commentReply).None? then 0 else old(commentReply).value.id);
        if created.Returned? && created.value.Some? then
          && threw == fetched.Threw?
          && notifications == old(notifications) + [PostedMessage]
          && commentInput == Some("")
          && CommentsReloaded(selectedPost.value.id, fetched, old(calls) + [sent])
        else
          && threw == created.Threw?
          && notifications == old(notifications) + (if threw then [] else [PostFailedMessage])
          && calls == old(calls) + [sent]
          && commentInput == old(commentInput) && commentReply == old(commentReply)
          && comments == old(comments) && isCommentsLoading == old(isCommentsLoading)
    {
      if authenticated.Threw? {
        return true;
      }
      if authenticated.value {
        var replyTo := 0;
        if commentReply.Some? {
          replyTo := commentReply.value.id;
        }
        calls := calls + [SendComment(selectedPost.value.id, commentInput, replyTo)];
        if created.Threw? {
          return true;
        }
        if created.value.Some? {
          notifications := notifications + [PostedMessage];
          commentInput := Some("");
          threw := GetComments(selectedPost.value.id, fetched);
          if threw {
            return;
          }
          CommentReplyUnset();
        } else {
          notifications := notifications + [PostFailedMessage];
        }
      } else {
        notifications := notifications + [LoginRequiredMessage];
      }
      return false;
    }

    /** Stores the visual state and sets up the post collection if there is none yet. */
    method LoadDataAsync(state: VisualState)
      requires Valid()
      modifies this`currentState, this`posts
      ensures Valid()
      ensures currentState == Some(state)
      ensures old(posts).None? ==> posts == Some(PostCollection([], false))
      ensures old(posts).Some? ==> posts == old(posts)
    {
      currentState := Some(state);
      if posts.None? {
        posts := Some(PostCollection([], false));
      }
    }

    /**
     * Called by the collection when a load ends: shows the first loaded post
     * whose id is the pending deep link, if there is one. The id stays pending.
     */
    method PostsOnEndLoading(fetched: Outcome<Option<seq<CommentThreaded>>>)
      requires Valid()
      requires postId != 0 ==> posts.Some?
      modifies this`selectedPost, this`commentReply, this`isCommentsLoading, this`comments
      modifies this`calls, this`navigations, this`unobservedFaults
      ensures Valid()
      ensures postId == old(postId)
      ensures old(DeepLinkTarget()).None? ==> navigations == old(navigations) && SessionUnchanged()
      ensures old(DeepLinkTarget()).Some? ==> PostShown(old(DeepLinkTarget()).value, fetched)
    {
      if postId != 0 {
        var selected := FirstWithId(posts.value.items, postId);
        if selected.Some? {
          ShowPost(selected.value, fetched);
        }
      }
    }

    method OnStateChanged(newState: VisualState)
      requires Valid()
      modifies this`currentState
      ensures Valid()
      ensures currentState == Some(newState)
    {
      currentState := Some(newState);
    }

    /** A click on a list item; `clicked` is the clicked post, None when it is not a post. */
    method OnItemClick(clicked: Option<Post>, fetched: Outcome<Option<seq<CommentThreaded>>>)
      requires clicked.Some? ==> currentState.Some?
      modifies this`selectedPost, this`commentReply, this`isCommentsLoading, this`comments
      modifies this`calls, this`navigations, this`unobservedFaults
      ensures clicked.None? ==> navigations == old(navigations) && SessionUnchanged()
      ensures clicked.Some? ==> PostShown(clicked.value, fetched)
    {
      if clicked.Some? {
        ShowPost(clicked.value, fetched);
      }
    }

    /** Navigates to the detail page in the narrow state, otherwise shows the post inline. */
    method ShowPost(post: Post, fetched: Outcome<Option<seq<CommentThreaded>>>)
      requires currentState.Some?
      modifies this`selectedPost, this`commentReply, this`isCommentsLoading, this`comments
      modifies this`calls, this`navigations, this`unobservedFaults
      ensures PostShown(post, fetched)
    {
      if currentState.value.name == NarrowStateName {
        navigations := navigations + [Navigation(DetailPageKey, post)];
      } else {
        selectedPost := Some(post);
        var threw := GetComments(post.id, fetched);
        if threw {
          unobservedFaults := unobservedFaults + 1;
        }
      }
    }

    /** Reloads the selected post's comments; an exception escapes onto the UI context. */
    method RefreshComments(fetched: Outcome<Option<seq<CommentThreaded>>>)
      requires selectedPost.Some?
      modifies this`commentReply, this`isCommentsLoading, this`comments, this`calls, this`unobservedFaults
      ensures CommentsReloaded(selectedPost.value.id, fetched, old(calls))
      ensures unobservedFaults == old(unobservedFaults) + (if fetched.Threw? then 1 else 0)
    {
      var threw := GetComments(selectedPost.value.id, fetched);
      if threw {
        unobservedFaults := unobservedFaults + 1;
      }
    }

    method CommentReplyUnset()
      modifies this`commentReply
      ensures commentReply == None
    {
      commentReply := None;
    }
  }
}
