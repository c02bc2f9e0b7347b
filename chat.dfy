/**
 * The viewport logic of components/Chat.tsx: when scrolling asks for
 * older messages, when a change of the message list scrolls to the
 * bottom, how a club switch re-arms the first-load jump, and what sending
 * does to the input.
 */
module ChatView {
  import opened Wrappers
  import opened Text
  import opened Types
  import opened Api
  import opened Store
  import opened Provider

  /** The scroll container's measurements, in whole pixels. */
  datatype Metrics = Metrics(scrollTop: int, scrollHeight: int, clientHeight: int)

  /** How close to an edge counts as being at it. */
  const Threshold: int := 40

  /** `el.scrollTop < 40`: 40 itself is not close enough. */
  function ShouldLoadOlder(scrollTop: int): (r: bool)
    ensures r <==> scrollTop <= Threshold - 1
  {
    scrollTop < Threshold
  }

  /** `scrollHeight - (scrollTop + clientHeight) < 40`: less than 40 pixels below the viewport. */
  function NearBottom(m: Metrics): (r: bool)
    ensures r <==> m.scrollTop + m.clientHeight > m.scrollHeight - Threshold
  {
    m.scrollHeight - (m.scrollTop + m.clientHeight) < Threshold
  }

  /**
   * One mounted `Chat`. `clubId` is the current prop: the page renders the
   * component without a `key`, so moving to another club keeps this
   * instance (its refs and its input) and only the prop changes; the
   * handlers then act on the new club. `mounted` is whether the first
   * commit has run, after which an effect runs only when its dependency
   * changed.
   */
  class Chat {
    var clubId: string
    var mounted: bool
    var isFirstLoad: bool
    var shouldStickToBottom: bool
    var text: string

    constructor(clubId: string)
      ensures this.clubId == clubId && !mounted && isFirstLoad && shouldStickToBottom && text == ""
    {
      this.clubId := clubId;
      mounted := false;
      isFirstLoad := true;
      shouldStickToBottom := true;
      text := "";
    }

    method SetText(t: string)
      modifies this
      ensures text == t && clubId == old(clubId) && mounted == old(mounted)
      ensures isFirstLoad == old(isFirstLoad) && shouldStickToBottom == old(shouldStickToBottom)
    {
      text := t;
    }

    /** `handleScroll`: asks the store for the page before the oldest shown, of the current club, near the top only. */
    method HandleScroll(container: Option<Metrics>, store: AppStore, page: Reply<seq<WireMessage>>) returns (asked: bool)
      modifies store
      ensures asked <==> container.Some? && ShouldLoadOlder(container.value.scrollTop)
      ensures asked ==> store.Snapshot() == LoadMoreMessages(old(store.Snapshot()), clubId, page)
      ensures !asked ==> store.Snapshot() == old(store.Snapshot())
    {
      asked := false;
      if container.None? {
        return;
      }
      if container.value.scrollTop < Threshold {
        store.LoadMoreMessages(clubId, page);
        asked := true;
      }
    }

    /**
     * The effects after a render with the props `newClubId` and a message
     * list (`messagesChanged` says whether it is another list than the
     * last render's), in declaration order. On the first commit every
     * effect runs; later, an effect runs when its dependency changed. The
     * message effects first measure the stick flag, then jump to the
     * bottom (always on a first load, which they end; afterwards only
     * when sticking); the club effect re-arms the first-load jump. The
     * input survives a change of club. `jumped` is whether
     * `scrollIntoView` was asked for.
     */
    method Commit(messagesChanged: bool, newClubId: string, container: Option<Metrics>) returns (jumped: bool)
      modifies this
      ensures clubId == newClubId && mounted && text == old(text)
      ensures (!old(mounted) || messagesChanged) && container.Some? ==> shouldStickToBottom == NearBottom(container.value)
      ensures !((!old(mounted) || messagesChanged) && container.Some?) ==> shouldStickToBottom == old(shouldStickToBottom)
      ensures old(mounted) && !messagesChanged ==> !jumped
      ensures (!old(mounted) || messagesChanged) && old(isFirstLoad) ==> jumped
      ensures (!old(mounted) || messagesChanged) && !old(isFirstLoad) ==> jumped == shouldStickToBottom
      ensures !old(mounted) || newClubId != old(clubId) ==> isFirstLoad
      ensures old(mounted) && newClubId == old(clubId) ==> isFirstLoad == (old(isFirstLoad) && !messagesChanged)
    {
      var runMessages := !mounted || messagesChanged;
      var runClub := !mounted || newClubId != clubId;
      clubId := newClubId;
      mounted := true;
      jumped := false;
      if runMessages && container.Some? {
        var m := container.value;
        shouldStickToBottom := m.scrollHeight - (m.scrollTop + m.clientHeight) < Threshold;
      }
      if runMessages {
        if isFirstLoad {
          jumped := true;
          isFirstLoad := false;
        } else if shouldStickToBottom {
          jumped := true;
        }
      }
      if runClub {
        isFirstLoad := true;
      }
    }

    /**
     * `handleSend`: blank input sends nothing and changes nothing; any
     * other input goes out as typed, untrimmed, then the box is cleared
     * and the view sticks to the bottom.
     */
    method HandleSend(store: AppStore, ack: Ack, data: ClubReplies, nowIso: string)
      modifies this, store
      ensures Trim(old(text)) == [] ==>
        store.Snapshot() == old(store.Snapshot()) && text == old(text) &&
        shouldStickToBottom == old(shouldStickToBottom)
      ensures Trim(old(text)) != [] ==>
        store.Snapshot() == SendMessage(old(store.Snapshot()), clubId, old(text), None, ack, data, nowIso) &&
        text == "" && shouldStickToBottom
      ensures isFirstLoad == old(isFirstLoad) && clubId == old(clubId) && mounted == old(mounted)
    {
      if Trim(text) == [] {
        return;
      }
      store.SendMessage(clubId, text, None, ack, data, nowIso);
      text := "";
      shouldStickToBottom := true;
    }
  }

  /**
   * A club switch reaches the handlers: a chat opened on club `a` whose
   * page moves to club `b` sends the next non-blank text to `b`.
   */
  method SwitchedChatSendsToNewClub(a: string, b: string, t: string, store: AppStore, ack: Ack, data: ClubReplies, nowIso: string)
    requires Trim(t) != []
    modifies store
    ensures store.Snapshot() == SendMessage(old(store.Snapshot()), b, t, None, ack, data, nowIso)
  {
    var chat := new Chat(a);
    var jumped := chat.Commit(true, a, None);
    jumped := chat.Commit(true, b, None);
    chat.SetText(t);
    chat.HandleSend(store, ack, data, nowIso);
  }
}
