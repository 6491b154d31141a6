/**
 * The WordPress entities the news view-model handles, as values.
 * Only the fields the view-model reads are kept.
 */
module Models {

  /** Stands for a reference that may be null: None is null. */
  datatype Option<+T> = None | Some(value: T)

  /** What an awaited collaborator call gives: the value it returned, or an exception. */
  datatype Outcome<+T> = Returned(value: T) | Threw

  /** A post of the feed; the view-model only reads its id (and hands the whole post on). */
  datatype Post = Post(id: int, title: string, link: string)

  /** A comment as the WordPress service returns it; `parent` is 0 for a top-level comment. */
  datatype Comment = Comment(id: int, parent: int, content: string)

  /** A comment placed in its thread by the service, with its depth in that thread. */
  datatype CommentThreaded = CommentThreaded(comment: Comment, depth: nat)
}
