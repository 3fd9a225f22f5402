/**
 * The forum page (nextjs/pages/Forum.js): the post search, the guards in
 * front of the create, edit and reply requests, the per-post toggle maps,
 * the edit mode, and who is offered the edit control. The page's state is
 * a `ForumView` whose handlers replace its fields; the requests become
 * parameters (did the request succeed, what did it return) and results
 * (was a request sent).
 */
module Forum {
  import opened Base
  import Text
  import Lists

  /** A post as the forum route returns it. */
  datatype Post = Post(forumId: int, userId: int, username: string, title: string, content: string)

  /** A reply as the replies route returns it. */
  datatype Reply = Reply(username: string, content: string)

  /** The search predicate on a post: its title contains the term,
      ignoring case. */
  predicate TitleMatches(term: string, post: Post) {
    Text.Matches(post.title, term)
  }

  /** `filteredPosts`: the posts whose title matches, in order. */
  function FilterPosts(posts: seq<Post>, term: string): (r: seq<Post>)
    ensures Lists.IsSubseq(r, posts)
    ensures forall p :: p in r ==> TitleMatches(term, p)
    ensures forall p :: p in posts ==>
      multiset(r)[p] == if TitleMatches(term, p) then multiset(posts)[p] else 0
  {
    Lists.Filter(posts, p => TitleMatches(term, p))
  }

  /** An empty search shows every post. */
  lemma EmptySearchShowsAllPosts(posts: seq<Post>)
    ensures FilterPosts(posts, "") == posts
  {
    forall p | p in posts ensures TitleMatches("", p) {
      Text.EmptyQueryMatches(p.title);
    }
    Lists.FilterKeepsAll(posts, p => TitleMatches("", p));
  }

  /** The create and edit guard: both fields must be non-empty. */
  predicate PostAccepted(title: string, content: string)
    ensures PostAccepted(title, content) <==> |title| > 0 && |content| > 0
  {
    title != "" && content != ""
  }

  /** `m[k]` read as a condition: a missing key is undefined, hence false. */
  predicate Flag(m: map<int, bool>, k: int) {
    k in m && m[k]
  }

  /** `{ ...m, [k]: !m[k] }`. */
  function Toggled(m: map<int, bool>, k: int): (r: map<int, bool>)
    ensures r.Keys == m.Keys + {k}
    ensures Flag(r, k) == !Flag(m, k)
    ensures forall j :: j in m && j != k ==> r[j] == m[j]
  {
    m[k := !Flag(m, k)]
  }

  /** Toggling the same post twice shows every field as before. */
  lemma ToggleTwiceRestores(m: map<int, bool>, k: int)
    ensures forall j :: Flag(Toggled(Toggled(m, k), k), j) == Flag(m, j)
  {
  }

  /** `replyContent[k] || ""`: the text the reply box shows. */
  function ReplyText(replyContent: map<int, string>, k: int): string {
    if k in replyContent then replyContent[k] else ""
  }

  /** The reply guard as written: reject only a stored empty string. A
      post whose box was never typed in has no entry, reads as undefined,
      and passes. */
  predicate ReplyRejectedAsWritten(replyContent: map<int, string>, postId: int)
    ensures ReplyRejectedAsWritten(replyContent, postId) ==> ReplyText(replyContent, postId) == ""
    ensures postId !in replyContent ==> !ReplyRejectedAsWritten(replyContent, postId)
  {
    postId in replyContent && replyContent[postId] == ""
  }

  /** The written guard lets an empty reply through: a box that shows ""
      but was never typed in is sent. */
  lemma ReplyGuardAsWrittenMissesUntyped(postId: int)
    ensures ReplyText(map[], postId) == ""
    ensures !ReplyRejectedAsWritten(map[], postId)
  {
  }

  /** The reply guard as intended: reject whatever shows as an empty box. */
  predicate ReplyRejected(replyContent: map<int, string>, postId: int)
    ensures ReplyRejected(replyContent, postId) <==>
      postId !in replyContent || replyContent[postId] == ""
  {
    ReplyText(replyContent, postId) == ""
  }

  /** The intended guard rejects everything the written one does, and
      more exactly the replies the box shows as empty. */
  lemma ReplyGuardCorrected(replyContent: map<int, string>, postId: int)
    ensures ReplyRejectedAsWritten(replyContent, postId) ==> ReplyRejected(replyContent, postId)
    ensures !ReplyRejected(replyContent, postId) <==>
      postId in replyContent && replyContent[postId] != ""
  {
  }

  /** The edit control is offered to an admin or to the post's author; a
      user id that is undefined matches no author. */
  function CanEdit(isAdmin: bool, post: Post, userId: Option<int>): (offered: bool)
    ensures offered <==> isAdmin || userId == Some(post.userId)
  {
    isAdmin || (userId.Some? && post.userId == userId.value)
  }

  /** The session store keeps no user id, so the page reads it as
      undefined and only admins are offered the edit control. */
  lemma WithoutUserIdOnlyAdminsEdit(isAdmin: bool, post: Post)
    ensures CanEdit(isAdmin, post, None) == isAdmin
  {
  }

  /** The forum page's state. */
  class ForumView {
    var title: string
    var content: string
    var isPostBoxOpen: bool
    var replyContent: map<int, string>
    var openReplyField: map<int, bool>
    var editPostId: Option<int>
    var editTitle: string
    var editContent: string
    var replies: map<int, seq<Reply>>
    var showReplies: map<int, bool>

    /** The state the page starts in. */
    constructor ()
      ensures title == "" && content == "" && !isPostBoxOpen
      ensures replyContent == map[] && openReplyField == map[]
      ensures editPostId.None? && editTitle == "" && editContent == ""
      ensures replies == map[] && showReplies == map[]
    {
      title, content, isPostBoxOpen := "", "", false;
      replyContent, openReplyField := map[], map[];
      editPostId, editTitle, editContent := None, "", "";
      replies, showReplies := map[], map[];
    }

    /** `handlePostSubmit`: no request unless both fields are filled; a
        successful request clears the box and closes it. */
    method HandlePostSubmit(succeeded: bool) returns (sent: bool)
      modifies this
      ensures sent <==> PostAccepted(old(title), old(content))
      ensures sent && succeeded ==> title == "" && content == "" && !isPostBoxOpen
      ensures !(sent && succeeded) ==>
        title == old(title) && content == old(content) && isPostBoxOpen == old(isPostBoxOpen)
      ensures replyContent == old(replyContent) && openReplyField == old(openReplyField)
      ensures editPostId == old(editPostId) && editTitle == old(editTitle) && editContent == old(editContent)
      ensures replies == old(replies) && showReplies == old(showReplies)
    {
      if title == "" || content == "" {
        return false;
      }
      sent := true;
      if succeeded {
        title, content := "", "";
        isPostBoxOpen := false;
      }
    }

    /** `handleReplyInputChange`. */
    method ReplyInputChange(postId: int, text: string)
      modifies this
      ensures replyContent == old(replyContent)[postId := text]
      ensures ReplyText(replyContent, postId) == text
      ensures forall k :: k != postId ==> ReplyText(replyContent, k) == ReplyText(old(replyContent), k)
      ensures title == old(title) && content == old(content) && isPostBoxOpen == old(isPostBoxOpen)
      ensures openReplyField == old(openReplyField)
      ensures editPostId == old(editPostId) && editTitle == old(editTitle) && editContent == old(editContent)
      ensures replies == old(replies) && showReplies == old(showReplies)
    {
      replyContent := replyContent[postId := text];
    }

    /** `handleReplySubmit` with the intended guard: the text sent is the
        box's, never empty; on success the box is emptied and closed. */
    method HandleReplySubmit(postId: int, succeeded: bool) returns (sent: Option<string>)
      modifies this
      ensures sent.None? <==> ReplyRejected(old(replyContent), postId)
      ensures sent.Some? ==> sent.value == old(replyContent)[postId] && sent.value != ""
      ensures sent.Some? && succeeded ==>
        replyContent == old(replyContent)[postId := ""] &&
        openReplyField == old(openReplyField)[postId := false]
      ensures !(sent.Some? && succeeded) ==>
        replyContent == old(replyContent) && openReplyField == old(openReplyField)
      ensures title == old(title) && content == old(content) && isPostBoxOpen == old(isPostBoxOpen)
      ensures editPostId == old(editPostId) && editTitle == old(editTitle) && editContent == old(editContent)
      ensures replies == old(replies) && showReplies == old(showReplies)
    {
      if ReplyText(replyContent, postId) == "" {
        return None;
      }
      sent := Some(replyContent[postId]);
      if succeeded {
        replyContent := replyContent[postId := ""];
        openReplyField := openReplyField[postId := false];
      }
    }

    /** `toggleReplyField`: flips one post's reply box, no other. */
    method ToggleReplyField(postId: int)
      modifies this
      ensures openReplyField == Toggled(old(openReplyField), postId)
      ensures title == old(title) && content == old(content) && isPostBoxOpen == old(isPostBoxOpen)
      ensures replyContent == old(replyContent)
      ensures editPostId == old(editPostId) && editTitle == old(editTitle) && editContent == old(editContent)
      ensures replies == old(replies) && showReplies == old(showReplies)
    {
      openReplyField := openReplyField[postId := !Flag(openReplyField, postId)];
    }

    /** `toggleEditField`: leaves edit mode on the post being edited, and
        otherwise enters it with that post's title and content. */
    method ToggleEditField(post: Post)
      modifies this
      ensures old(editPostId) == Some(post.forumId) ==>
        editPostId.None? && editTitle == "" && editContent == ""
      ensures old(editPostId) != Some(post.forumId) ==>
        editPostId == Some(post.forumId) && editTitle == post.title && editContent == post.content
      ensures title == old(title) && content == old(content) && isPostBoxOpen == old(isPostBoxOpen)
      ensures replyContent == old(replyContent) && openReplyField == old(openReplyField)
      ensures replies == old(replies) && showReplies == old(showReplies)
    {
      if editPostId == Some(post.forumId) {
        editPostId, editTitle, editContent := None, "", "";
      } else {
        editPostId, editTitle, editContent := Some(post.forumId), post.title, post.content;
      }
    }

    /** `handleEditPost`: no request unless both edit fields are filled; a
        successful request leaves edit mode. */
    method HandleEditPost(postId: int, succeeded: bool) returns (sent: bool)
      modifies this
      ensures sent <==> PostAccepted(old(editTitle), old(editContent))
      ensures sent && succeeded ==> editPostId.None? && editTitle == "" && editContent == ""
      ensures !(sent && succeeded) ==>
        editPostId == old(editPostId) && editTitle == old(editTitle) && editContent == old(editContent)
      ensures title == old(title) && content == old(content) && isPostBoxOpen == old(isPostBoxOpen)
      ensures replyContent == old(replyContent) && openReplyField == old(openReplyField)
      ensures replies == old(replies) && showReplies == old(showReplies)
    {
      if editTitle == "" || editContent == "" {
        return false;
      }
      sent := true;
      if succeeded {
        editPostId, editTitle, editContent := None, "", "";
      }
    }

    /** `fetchReplies`: a shown list is only hidden, with no request; a
        hidden one is requested and, when the request returns, stored and
        shown. */
    method FetchReplies(forumId: int, fetched: Option<seq<Reply>>) returns (requested: bool)
      modifies this
      ensures requested <==> !Flag(old(showReplies), forumId)
      ensures !requested ==> showReplies == old(showReplies)[forumId := false] && replies == old(replies)
      ensures requested && fetched.Some? ==>
        replies == old(replies)[forumId := fetched.value] && showReplies == old(showReplies)[forumId := true]
      ensures requested && fetched.None? ==> replies == old(replies) && showReplies == old(showReplies)
      ensures title == old(title) && content == old(content) && isPostBoxOpen == old(isPostBoxOpen)
      ensures replyContent == old(replyContent) && openReplyField == old(openReplyField)
      ensures editPostId == old(editPostId) && editTitle == old(editTitle) && editContent == old(editContent)
    {
      if Flag(showReplies, forumId) {
        showReplies := showReplies[forumId := false];
        return false;
      }
      requested := true;
      if fetched.Some? {
        replies := replies[forumId := fetched.value];
        showReplies := showReplies[forumId := true];
      }
    }
  }
}
