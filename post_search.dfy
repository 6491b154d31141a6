/**
 * The search `Posts.Where(x => x.Id == id).FirstOrDefault()` that resolves a
 * deep-linked post id against the posts loaded so far, and what it guarantees
 * as more pages are appended to the collection.
 */
module PostSearch {
  import opened Models

  /** Some loaded post carries the id. */
  predicate HasId(posts: seq<Post>, id: int) {
    exists i :: 0 <= i < |posts| && posts[i].id == id
  }

  /** No post before position k carries the id. */
  predicate NoneBefore(posts: seq<Post>, id: int, k: int)
    requires 0 <= k <= |posts|
  {
    forall j :: 0 <= j < k ==> posts[j].id != id
  }

  /** The first post, in collection order, whose id is `id`; None (null) if there is none. */
  function FirstWithId(posts: seq<Post>, id: int): (r: Option<Post>)
    ensures r.Some? <==> HasId(posts, id)
    ensures r.Some? ==> r.value.id == id
    ensures r.Some? ==> exists k :: 0 <= k < |posts| && posts[k] == r.value && NoneBefore(posts, id, k)
  {
    if posts == [] then None
    else if posts[0].id == id then
      assert NoneBefore(posts, id, 0);
      Some(posts[0])
    else
      var r := FirstWithId(posts[1..], id);
      assert HasId(posts, id) ==> HasId(posts[1..], id) by {
        if HasId(posts, id) {
          var i :| 0 <= i < |posts| && posts[i].id == id;
          assert posts[1..][i - 1].id == id;
        }
      }
      assert r.Some? ==> exists k :: 0 <= k < |posts| && posts[k] == r.value && NoneBefore(posts, id, k) by {
        if r.Some? {
          var k :| 0 <= k < |posts[1..]| && posts[1..][k] == r.value && NoneBefore(posts[1..], id, k);
          assert posts[k + 1] == r.value;
          assert NoneBefore(posts, id, k + 1) by {
            forall j | 0 <= j < k + 1 ensures posts[j].id != id {
              if j > 0 { assert posts[j] == posts[1..][j - 1]; }
            }
          }
        }
      }
      r
  }

  /**
   * Once the target has been loaded, appending further pages never changes
   * which post the search finds: every later end-of-load finds the same post.
   */
  lemma {:induction false} FirstWithIdKeptByAppend(loaded: seq<Post>, page: seq<Post>, id: int)
    requires HasId(loaded, id)
    ensures FirstWithId(loaded + page, id) == FirstWithId(loaded, id)
  {
    if loaded[0].id != id {
      var i :| 0 <= i < |loaded| && loaded[i].id == id;
      assert loaded[1..][i - 1].id == id;
      assert (loaded + page)[1..] == loaded[1..] + page;
      FirstWithIdKeptByAppend(loaded[1..], page, id);
    }
  }

  /**
   * While the target is absent from the posts loaded so far, the search over
   * the grown collection finds exactly what it finds in the appended page.
   */
  lemma {:induction false} FirstWithIdSkipsMissingPrefix(loaded: seq<Post>, page: seq<Post>, id: int)
    requires !HasId(loaded, id)
    ensures FirstWithId(loaded + page, id) == FirstWithId(page, id)
  {
    if loaded != [] {
      assert loaded[0].id != id;
      assert (loaded + page)[1..] == loaded[1..] + page;
      assert !HasId(loaded[1..], id) by {
        forall i | 0 <= i < |loaded[1..]| ensures loaded[1..][i].id != id {
          assert loaded[1..][i] == loaded[i + 1];
        }
      }
      FirstWithIdSkipsMissingPrefix(loaded[1..], page, id);
    } else {
      assert loaded + page == page;
    }
  }
}
