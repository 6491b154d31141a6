/**
 * Sessions of the news view-model, driven as the page, the incremental
 * collection and the services drive it, and what each one ends with. They
 * rest only on the view-model's contracts and the search lemmas. Where a
 * scenario assigns `vm.posts`, it plays the toolkit's collection loading a page.
 */
module NewsScenarios {
  import opened Models
  import opened PostSearch
  import opened ViewModels

  /** A deep link as the navigation parameter carries it, and the id it parses to. */
  const DeepLinkText := "42"
  const DeepLinkId := 42

  /**
   * A deep link whose post is missing from the first page and present in the
   * second: the first end-of-load shows nothing, the second shows the first
   * post of the second page that carries the id.
   */
  method DeepLinkResolvedOnSecondPage(firstPage: seq<Post>, secondPage: seq<Post>,
                                      fetched: Outcome<Option<seq<CommentThreaded>>>)
    returns (afterFirst: Option<Post>, afterSecond: Option<Post>)
    requires !HasId(firstPage, DeepLinkId) && HasId(secondPage, DeepLinkId)
    ensures afterFirst == None
    ensures afterSecond == FirstWithId(secondPage, DeepLinkId)
    ensures afterSecond.Some? && afterSecond.value.id == DeepLinkId
  {
    var vm := new NewsViewModel();
    vm.Init(VisualState(WideStateName), Some(DeepLinkText), DeepLinkId, false);
    vm.posts := Some(PostCollection(firstPage, false));
    vm.PostsOnEndLoading(fetched);
    afterFirst := vm.selectedPost;
    vm.posts := Some(PostCollection(firstPage + secondPage, false));
    FirstWithIdSkipsMissingPrefix(firstPage, secondPage, DeepLinkId);
    vm.PostsOnEndLoading(fetched);
    afterSecond := vm.selectedPost;
  }

  /**
   * The pending id is never cleared, so once the deep-linked post is loaded
   * every later end-of-load shows it again: in the wide state that drops the
   * reply target the user picked in between and reloads the comments.
   */
  method LaterPageShowsDeepLinkAgain(loaded: seq<Post>, nextPage: seq<Post>, target: Post, reply: Comment,
                                     fetched: Outcome<Option<seq<CommentThreaded>>>, refetched: Outcome<Option<seq<CommentThreaded>>>)
    returns (pendingId: int, selected: Option<Post>, replyTarget: Option<Comment>, shownComments: Option<seq<CommentThreaded>>)
    requires target.id == DeepLinkId && FirstWithId(loaded, target.id) == Some(target)
    requires refetched.Returned? && refetched.value.Some?
    ensures pendingId == target.id
    ensures selected == Some(target)
    ensures replyTarget == None
    ensures shownComments == refetched.value
  {
    var vm := new NewsViewModel();
    vm.Init(VisualState(WideStateName), Some(DeepLinkText), DeepLinkId, false);
    vm.posts := Some(PostCollection(loaded, false));
    vm.PostsOnEndLoading(fetched);
    vm.commentReply := Some(reply);
    vm.posts := Some(PostCollection(loaded + nextPage, false));
    FirstWithIdKeptByAppend(loaded, nextPage, target.id);
    vm.PostsOnEndLoading(refetched);
    pendingId, selected, replyTarget, shownComments := vm.postId, vm.selectedPost, vm.commentReply, vm.comments;
  }

  /**
   * A post the service rejects keeps the draft and the reply target for a
   * retry; the accepted retry clears both and shows the reloaded thread.
   */
  method PostCommentRetry(post: Post, draft: string, reply: Comment, created: Comment,
                          fetched: Outcome<Option<seq<CommentThreaded>>>)
    returns (draftAfterFailure: Option<string>, replyAfterFailure: Option<Comment>,
             draftAfterSuccess: Option<string>, replyAfterSuccess: Option<Comment>,
             commentsAfterSuccess: Option<seq<CommentThreaded>>)
    requires fetched.Returned? && fetched.value.Some?
    ensures draftAfterFailure == Some(draft) && replyAfterFailure == Some(reply)
    ensures draftAfterSuccess == Some("") && replyAfterSuccess == None
    ensures commentsAfterSuccess == fetched.value
  {
    var vm := new NewsViewModel();
    vm.LoadDataAsync(VisualState(WideStateName));
    vm.ShowPost(post, Returned(None));
    vm.commentInput := Some(draft);
    vm.commentReply := Some(reply);
    var threw := vm.PostComment(Returned(true), Returned(None), Returned(None));
    draftAfterFailure, replyAfterFailure := vm.commentInput, vm.commentReply;
    threw := vm.PostComment(Returned(true), Returned(Some(created)), fetched);
    draftAfterSuccess, replyAfterSuccess, commentsAfterSuccess := vm.commentInput, vm.commentReply, vm.comments;
  }

  /**
   * A post shown in the narrow state leaves the inline selection alone; after
   * the page turns wide, the next post shown is selected inline.
   */
  method LayoutSwitchRoutesNextSelection(first: Post, second: Post, fetched: Outcome<Option<seq<CommentThreaded>>>)
    returns (selectedWhenNarrow: Option<Post>, selectedWhenWide: Option<Post>)
    ensures selectedWhenNarrow == None
    ensures selectedWhenWide == Some(second)
  {
    var vm := new NewsViewModel();
    vm.LoadDataAsync(VisualState(NarrowStateName));
    vm.OnItemClick(Some(first), fetched);
    selectedWhenNarrow := vm.selectedPost;
    vm.OnStateChanged(VisualState(WideStateName));
    vm.OnItemClick(Some(second), fetched);
    selectedWhenWide := vm.selectedPost;
  }

  /**
   * Nothing catches an exception from the comment fetch: showing a post
   * inline whose fetch throws leaves the loading flag set until the next
   * reload, the previous thread emptied and the reply target dropped.
   */
  method CommentFetchThrowsLeavesLoading(first: Post, second: Post, thread: seq<CommentThreaded>, reply: Comment)
    returns (loading: bool, shownComments: Option<seq<CommentThreaded>>, replyTarget: Option<Comment>,
             selected: Option<Post>)
    ensures loading
    ensures shownComments == Some([])
    ensures replyTarget == None
    ensures selected == Some(second)
  {
    var vm := new NewsViewModel();
    vm.LoadDataAsync(VisualState(WideStateName));
    vm.ShowPost(first, Returned(Some(thread)));
    vm.commentReply := Some(reply);
    vm.ShowPost(second, Threw);
    loading, shownComments, replyTarget, selected := vm.isCommentsLoading, vm.comments, vm.commentReply, vm.selectedPost;
  }
}
