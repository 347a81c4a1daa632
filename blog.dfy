/**
 * The blog page (`BlogTab`): a fixed list of posts rendered as previews, and
 * one state cell, the selected post, that a preview click sets and the
 * modal's close button clears. The modal is rendered exactly while a post is
 * selected.
 */
module Blog {
  import opened Options

  /** A post; its Markdown body is rendered by a library outside this model and is left out. */
  datatype Post = Post(
    id: nat,
    title: string,
    date: string,
    readTime: string,
    tags: seq<string>,
    image: string
  )

  /** `blogPosts`, in page order. */
  const BlogPosts: seq<Post> := [
    Post(1, "Quantum Neural Networks: The Future of AI", "November 15, 2024", "5 min read",
      ["Quantum Computing", "AI", "Research"], "/quantum-ai.jpeg"),
    Post(2, "ROS2: Building Autonomous Robotics Systems", "October 20, 2024", "7 min read",
      ["Robotics", "ROS2", "Software Development"], "/ros2-robotics.jpeg"),
    Post(3, "AI in Agriculture: Beyond Traditional Farming", "September 5, 2024", "6 min read",
      ["AI", "Agriculture", "Sustainability"], "/ai-agriculture.jpeg")
  ]

  /** Post ids are 1, 2, 3 in order and pairwise distinct: they key the previews. */
  lemma PostIdsDistinct()
    ensures forall i :: 0 <= i < |BlogPosts| ==> BlogPosts[i].id == i + 1
    ensures forall i, j :: 0 <= i < |BlogPosts| && 0 <= j < |BlogPosts| && BlogPosts[i].id == BlogPosts[j].id ==> i == j
  {
  }

  /** Within each post the tags are pairwise distinct: they key the tag chips of its preview. */
  lemma TagsDistinct(k: nat)
    requires k < |BlogPosts|
    ensures var tags := BlogPosts[k].tags;
      forall i, j :: 0 <= i < |tags| && 0 <= j < |tags| && tags[i] == tags[j] ==> i == j
  {
  }

  /** A click on the `i`-th preview (`handleReadMore(post)`) or on the modal's close button. */
  datatype BlogEvent = ReadMore(index: nat) | CloseModal

  /** The page produces only clicks on previews that exist. */
  predicate FromUi(e: BlogEvent)
  {
    e.ReadMore? ==> e.index < |BlogPosts|
  }

  /** The effect of one event on the selected post. */
  function Step(selected: Option<Post>, e: BlogEvent): Option<Post>
    requires FromUi(e)
  {
    match e
    case ReadMore(i) => Some(BlogPosts[i])
    case CloseModal => None
  }

  predicate AllFromUi(evs: seq<BlogEvent>)
  {
    forall k :: 0 <= k < |evs| ==> FromUi(evs[k])
  }

  /** The selection after a sequence of events, the last event applied last. */
  function Run(selected: Option<Post>, evs: seq<BlogEvent>): Option<Post>
    requires AllFromUi(evs)
    decreases |evs|
  {
    if evs == [] then selected else Step(Run(selected, evs[..|evs| - 1]), evs[|evs| - 1])
  }

  /** Closing twice is closing once, and closing after opening restores the initial selection. */
  lemma CloseIdempotent(selected: Option<Post>, i: nat)
    requires i < |BlogPosts|
    ensures Step(Step(selected, CloseModal), CloseModal) == Step(selected, CloseModal) == None
    ensures Step(Step(selected, ReadMore(i)), CloseModal) == None
  {
  }

  /**
   * From no selection, any clicks leave either nothing selected or one of
   * the listed posts; this is the induction. The second clause, that the last
   * click alone decides the selection, holds simply because each handler
   * overwrites the one cell without reading it.
   */
  lemma {:induction false} SelectionIsLastClick(evs: seq<BlogEvent>)
    requires AllFromUi(evs)
    ensures var r := Run(None, evs);
      r == None || exists k :: 0 <= k < |BlogPosts| && r == Some(BlogPosts[k])
    ensures evs != [] ==> Run(None, evs) == Step(None, evs[|evs| - 1])
    decreases |evs|
  {
    if evs != [] {
      var last := evs[|evs| - 1];
      assert FromUi(last);
      SelectionIsLastClick(evs[..|evs| - 1]);
      match last
      case ReadMore(i) =>
        assert Run(None, evs) == Some(BlogPosts[i]);
      case CloseModal =>
    }
  }

  /** `BlogTab`'s one state cell. */
  class BlogTab {
    var selectedPost: Option<Post>

    /** The modal is rendered iff a post is selected. */
    predicate ModalShown()
      reads this
    {
      selectedPost.Some?
    }

    constructor ()
      ensures selectedPost == None && !ModalShown()
    {
      selectedPost := None;
    }

    /** `handleReadMore`: select the clicked post and show its modal. */
    method HandleReadMore(post: Post)
      modifies this
      ensures selectedPost == Some(post) && ModalShown()
    {
      selectedPost := Some(post);
    }

    /** `handleCloseModal`: clear the selection and hide the modal. */
    method HandleCloseModal()
      modifies this
      ensures selectedPost == Step(old(selectedPost), CloseModal) == None && !ModalShown()
    {
      selectedPost := None;
    }

    /** A click on the `i`-th preview. */
    method ClickPreview(i: nat)
      requires i < |BlogPosts|
      modifies this
      ensures selectedPost == Step(old(selectedPost), ReadMore(i)) == Some(BlogPosts[i])
    {
      HandleReadMore(BlogPosts[i]);
    }
  }
}
