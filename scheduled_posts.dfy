/**
 * The scheduled-posts list of one platform: a constant list of mock posts,
 * a status filter chosen from a select ("all" or one status), the colour of
 * each status badge and the action buttons shown beside each post.
 */
module ScheduledPosts {

  datatype Post = Post(
    id: int,
    title: string,
    kind: string,
    scheduledDate: string,
    scheduledTime: string,
    status: string,
    thumbnail: string)

  /** The filter value that keeps every post. */
  const All: string := "all"

  /** The four mock posts the list shows. */
  function MockPosts(): seq<Post>
  {
    [ Post(1, "Amazing Travel Video from Bali", "video", "2024-01-15", "10:00", "scheduled",
           "https://images.pexels.com/photos/1118873/pexels-photo-1118873.jpeg?w=300&h=200&fit=crop"),
      Post(2, "Tech Review: Latest Smartphone", "shorts", "2024-01-15", "14:00", "scheduled",
           "https://images.pexels.com/photos/607812/pexels-photo-607812.jpeg?w=300&h=200&fit=crop"),
      Post(3, "Cooking Tutorial: Italian Pasta", "video", "2024-01-16", "18:00", "publishing",
           "https://images.pexels.com/photos/1640777/pexels-photo-1640777.jpeg?w=300&h=200&fit=crop"),
      Post(4, "Morning Routine for Productivity", "post", "2024-01-17", "08:00", "scheduled",
           "https://images.pexels.com/photos/374074/pexels-photo-374074.jpeg?w=300&h=200&fit=crop") ]
  }

  // ---------------------------------------------------------------------
  // Filtering
  // ---------------------------------------------------------------------

  /** `posts.filter(post => filter === 'all' || post.status === filter)`. */
  function Filtered(posts: seq<Post>, filter: string): seq<Post>
  {
    if posts == [] then []
    else (if filter == All || posts[0].status == filter then [posts[0]] else [])
         + Filtered(posts[1..], filter)
  }

  /** `a` is `b` with some elements left out and the rest in their order. */
  predicate IsSubsequence(a: seq<Post>, b: seq<Post>)
    decreases |b|
  {
    if a == [] then true
    else if b == [] then false
    else (a[0] == b[0] && IsSubsequence(a[1..], b[1..])) || IsSubsequence(a, b[1..])
  }

  /** The wildcard keeps the whole list in its order. */
  lemma {:induction false} FilterAllKeepsEverything(posts: seq<Post>)
    ensures Filtered(posts, All) == posts
    decreases |posts|
  {
    if posts != [] {
      FilterAllKeepsEverything(posts[1..]);
      assert [posts[0]] + posts[1..] == posts;
    }
  }

  /** Any other filter value keeps exactly the posts with that status: every
      post returned has it, and every post that has it is returned. */
  lemma {:induction false} FilterByStatus(posts: seq<Post>, filter: string)
    requires filter != All
    ensures forall p :: p in Filtered(posts, filter) ==> p.status == filter
    ensures forall p :: p in posts && p.status == filter ==> p in Filtered(posts, filter)
    decreases |posts|
  {
    if posts != [] {
      FilterByStatus(posts[1..], filter);
      assert posts == [posts[0]] + posts[1..];
    }
  }

  /** The filtered list is an order-preserving subsequence of the full list. */
  lemma {:induction false} FilterIsSubsequence(posts: seq<Post>, filter: string)
    ensures IsSubsequence(Filtered(posts, filter), posts)
    decreases |posts|
  {
    if posts != [] {
      FilterIsSubsequence(posts[1..], filter);
      var rest := Filtered(posts[1..], filter);
      if filter == All || posts[0].status == filter {
        assert Filtered(posts, filter) == [posts[0]] + rest;
        assert ([posts[0]] + rest)[1..] == rest;
      } else {
        assert Filtered(posts, filter) == rest;
        SubsequenceOfTail(rest, posts);
      }
    }
  }

  lemma {:induction false} SubsequenceOfTail(a: seq<Post>, b: seq<Post>)
    requires b != [] && IsSubsequence(a, b[1..])
    ensures IsSubsequence(a, b)
  {
  }

  /** The "No scheduled posts" message is shown exactly when no post passes the filter. */
  predicate ShowsEmptyState(posts: seq<Post>, filter: string)
  {
    |Filtered(posts, filter)| == 0
  }

  /** The list is empty under a filter exactly when no post has that status
      (and never under the wildcard, unless there are no posts at all). */
  lemma EmptyStateIff(posts: seq<Post>, filter: string)
    ensures ShowsEmptyState(posts, filter) <==>
      (filter == All && posts == []) || (filter != All && forall p :: p in posts ==> p.status != filter)
  {
    if filter == All {
      FilterAllKeepsEverything(posts);
    } else {
      FilterByStatus(posts, filter);
      if !ShowsEmptyState(posts, filter) {
        var f := Filtered(posts, filter);
        assert f[0] in f;
        FilterIsSubsequence(posts, filter);
        SubsequenceMembers(f, posts);
      }
    }
  }

  lemma {:induction false} SubsequenceMembers(a: seq<Post>, b: seq<Post>)
    requires IsSubsequence(a, b)
    ensures forall p :: p in a ==> p in b
    decreases |b|
  {
    if a != [] {
      if a[0] == b[0] && IsSubsequence(a[1..], b[1..]) {
        SubsequenceMembers(a[1..], b[1..]);
        assert a == [a[0]] + a[1..];
        assert b == [b[0]] + b[1..];
      } else {
        SubsequenceMembers(a, b[1..]);
        assert b == [b[0]] + b[1..];
      }
    }
  }

  function Ids(posts: seq<Post>): seq<int>
  {
    seq(|posts|, i requires 0 <= i < |posts| => posts[i].id)
  }

  /** On the mock posts: "failed" shows the empty state, "scheduled" shows posts 1, 2 and 4. */
  lemma MockFilters()
    ensures ShowsEmptyState(MockPosts(), "failed")
    ensures Ids(Filtered(MockPosts(), "scheduled")) == [1, 2, 4]
    ensures Ids(Filtered(MockPosts(), "publishing")) == [3]
    ensures Filtered(MockPosts(), All) == MockPosts()
  {
    var m := MockPosts();
    assert m[1..][1..][1..][1..] == [];
    FilterAllKeepsEverything(m);
  }

  // ---------------------------------------------------------------------
  // Status badge and action buttons
  // ---------------------------------------------------------------------

  /** The badge colour of a post status, total over every string. */
  function StatusColor(status: string): string
  {
    match status
    case "scheduled" => "bg-blue-600"
    case "publishing" => "bg-green-600"
    case "published" => "bg-gray-600"
    case "failed" => "bg-red-600"
    case _ => "bg-gray-600"
  }

  /** Blue, green and red each mark one status; every other status, known
      ("published") or not, is grey. */
  lemma StatusColorCases(status: string)
    ensures StatusColor(status) == "bg-blue-600" <==> status == "scheduled"
    ensures StatusColor(status) == "bg-green-600" <==> status == "publishing"
    ensures StatusColor(status) == "bg-red-600" <==> status == "failed"
    ensures StatusColor(status) == "bg-gray-600" <==> status !in {"scheduled", "publishing", "failed"}
  {
  }

  datatype Action = View | Edit | Play | Pause | Delete

  /** The buttons beside a post, left to right. */
  function Actions(status: string): seq<Action>
  {
    [View, Edit]
      + (if status == "scheduled" then [Play] else [])
      + (if status == "publishing" then [Pause] else [])
      + [Delete]
  }

  /** Play appears only for scheduled posts and Pause only for publishing
      ones, never both; view, edit and delete are always there. */
  lemma ActionsByStatus(status: string)
    ensures Play in Actions(status) <==> status == "scheduled"
    ensures Pause in Actions(status) <==> status == "publishing"
    ensures !(Play in Actions(status) && Pause in Actions(status))
    ensures View in Actions(status) && Edit in Actions(status) && Delete in Actions(status)
  {
  }
}
