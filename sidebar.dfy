/**
 * The sidebar's part in a turn: which title a conversation row shows (the "New Chat"
 * placeholder, the typing animation, or the plain title), the set of conversation ids
 * whose title has already been typed out, and the "New Chat" button.
 */
module Sidebar {
  import opened ChatTypes
  import opened ChatStream

  /** What a row shows in place of its title. */
  datatype TitleView = PlaceholderTitle | AnimatedTitle(title: string) | StaticTitle(title: string)

  /**
   * The row's title: the placeholder while the title is generating or still "New Chat";
   * otherwise the animation until the id is in the typed set, then the plain title.
   */
  function TitleDisplay(c: CachedConversation, typed: set<Id>): (r: TitleView)
    ensures r.PlaceholderTitle? <==> c.isTitleGenerating || c.title == NewChatTitle
    ensures r.AnimatedTitle? <==> !(c.isTitleGenerating || c.title == NewChatTitle) && c.id !in typed
    ensures r.StaticTitle? <==> !(c.isTitleGenerating || c.title == NewChatTitle) && c.id in typed
    ensures !r.PlaceholderTitle? ==> r.title == c.title
  {
    if c.isTitleGenerating || c.title == NewChatTitle then PlaceholderTitle
    else if c.id !in typed then AnimatedTitle(c.title)
    else StaticTitle(c.title)
  }

  /** A title is animated once: after its animation completes, the row shows it plainly. */
  lemma AnimatesOnce(c: CachedConversation, typed: set<Id>)
    requires TitleDisplay(c, typed).AnimatedTitle?
    ensures TitleDisplay(c, typed + {c.id}) == StaticTitle(c.title)
    ensures forall other :: TitleDisplay(other, typed).StaticTitle? ==> TitleDisplay(other, typed + {c.id}).StaticTitle?
  {
  }

  /**
   * The value stored under `animatedTitles`: missing (or empty), not a JSON array of
   * ids, or the array.
   */
  datatype Stored = Absent | Malformed | Ids(ids: seq<Id>)

  /** The typed set the sidebar starts with: the stored ids, or none. */
  function InitialTyped(stored: Stored): (r: set<Id>)
    ensures stored.Ids? ==> forall x :: x in r <==> x in stored.ids
    ensures !stored.Ids? ==> r == {}
  {
    if stored.Ids? then set x | x in stored.ids else {}
  }

  /** The sidebar's state: the typed set and the cached message list of the unsaved chat. */
  class SidebarState {
    var typed: set<Id>
    var draftMessages: Option<seq<Message>>

    constructor (stored: Stored, draft: Option<seq<Message>>)
      ensures typed == InitialTyped(stored) && draftMessages == draft
    {
      typed := InitialTyped(stored);
      draftMessages := draft;
    }

    /** `handleAnimationComplete(id)`: the id joins the set; every id already in it stays. */
    method AnimationComplete(id: Id)
      modifies this
      ensures typed == old(typed) + {id}
      ensures draftMessages == old(draftMessages)
    {
      typed := typed + {id};
    }

    /** `handleNewChat`: the unsaved chat's message list is emptied; the typed set is left alone. */
    method NewChat()
      modifies this
      ensures draftMessages == Some([])
      ensures typed == old(typed)
    {
      draftMessages := Some([]);
    }
  }
}
