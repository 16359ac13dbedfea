/** The chat screen: it opens the session of the counterparty named in its
    parameters, may post the automatic "payment completed" message once,
    and sends what the user typed.  Navigation parameters that are missing
    or empty are both written "" here, since the screen only ever tests
    them for truthiness. */
module ChatScreen {
  import opened Seqs
  import opened Text
  import opened Chat

  /** `params.lenderName || params.name || 'Lender'`. */
  function DisplayName(lenderName: string, name: string): (r: string)
    ensures r != ""
    ensures lenderName != "" ==> r == lenderName
    ensures lenderName == "" && name != "" ==> r == name
    ensures lenderName == "" && name == "" ==> r == "Lender"
  {
    if lenderName != "" then lenderName else if name != "" then name else "Lender"
  }

  /** The automatic message for a paid item. */
  function AutoText(itemTitle: string): string {
    "Hi! I just completed the payment for \"" + itemTitle + "\". When can I pick it up?"
  }

  /** `messages.some(m => m.text === text)`. */
  predicate AlreadySent(ms: seq<Message>, text: string) {
    exists i :: 0 <= i < |ms| && ms[i].text == text
  }

  lemma AlreadySentIffCounted(ms: seq<Message>, text: string)
    ensures AlreadySent(ms, text) <==> Count(Texts(ms), text) > 0
  {
    if AlreadySent(ms, text) {
      var i :| 0 <= i < |ms| && ms[i].text == text;
      assert Texts(ms)[i] == text;
    }
  }

  // ---------------------------------------------------------------------
  // What each screen action does to the list of session values
  // ---------------------------------------------------------------------

  /** The store after the auto-message effect of a screen showing
      `displayName` with item title `itemTitle` ("" for none). */
  function AfterAutoMessage(vs: seq<SessionView>, displayName: string, itemTitle: string, stamp: string, time: string): (r: seq<SessionView>)
    ensures |vs| <= |r| <= |vs| + 1
  {
    if itemTitle == "" || AlreadySent(MessagesOf(vs, displayName), AutoText(itemTitle)) then vs
    else WithMessage(vs, displayName, Message(stamp, AutoText(itemTitle), Me, time))
  }

  /** The store after pressing send with `input` in the text field. */
  function AfterSend(vs: seq<SessionView>, displayName: string, input: string, stamp: string, time: string): (r: seq<SessionView>)
    ensures |vs| <= |r| <= |vs| + 1
  {
    if IsBlank(input) then vs
    else WithMessage(vs, displayName, Message(stamp, input, Me, time))
  }

  /** Without an item title the effect does nothing. */
  lemma NoTitleNoEffect(vs: seq<SessionView>, displayName: string, stamp: string, time: string)
    ensures AfterAutoMessage(vs, displayName, "", stamp, time) == vs
  {
  }

  /** With an item title, the auto-message is stored once when it was
      absent, and the store is untouched when a copy was there. */
  lemma {:induction false} AutoMessageStoredOnce(vs: seq<SessionView>, displayName: string, itemTitle: string, stamp: string, time: string)
    requires itemTitle != ""
    ensures var t := AutoText(itemTitle);
      var r := AfterAutoMessage(vs, displayName, itemTitle, stamp, time);
      && (CountText(vs, displayName, t) == 0 ==> CountText(r, displayName, t) == 1)
      && (CountText(vs, displayName, t) > 0 ==> r == vs)
  {
    var t := AutoText(itemTitle);
    AlreadySentIffCounted(MessagesOf(vs, displayName), t);
    if CountText(vs, displayName, t) == 0 {
      WithMessageCountText(vs, displayName, Message(stamp, t, Me, time));
    }
  }

  /** Running the effect again (a re-render) stores nothing more. */
  lemma {:induction false} AutoMessageIdempotent(vs: seq<SessionView>, displayName: string, itemTitle: string,
                                                stamp: string, time: string, stamp2: string, time2: string)
    ensures var r := AfterAutoMessage(vs, displayName, itemTitle, stamp, time);
      AfterAutoMessage(r, displayName, itemTitle, stamp2, time2) == r
  {
    if itemTitle != "" {
      var t := AutoText(itemTitle);
      var r := AfterAutoMessage(vs, displayName, itemTitle, stamp, time);
      AutoMessageStoredOnce(vs, displayName, itemTitle, stamp, time);
      AlreadySentIffCounted(MessagesOf(vs, displayName), t);
      AlreadySentIffCounted(MessagesOf(r, displayName), t);
    }
  }

  /** A blank input leaves the store as it was. */
  lemma BlankSendNoop(vs: seq<SessionView>, displayName: string, input: string, stamp: string, time: string)
    requires forall i :: 0 <= i < |input| ==> IsJsSpace(input[i])
    ensures AfterSend(vs, displayName, input, stamp, time) == vs
  {
    BlankIffAllSpace(input);
  }

  /** A non-blank input is appended, untrimmed and as the user's own
      message, at the end of the displayed session's log, and the session
      goes to the front. */
  lemma SendAppends(vs: seq<SessionView>, displayName: string, input: string, stamp: string, time: string)
    requires !IsBlank(input)
    ensures var r := AfterSend(vs, displayName, input, stamp, time);
      && MessagesOf(r, displayName) == MessagesOf(vs, displayName) + [Message(stamp, input, Me, time)]
      && r[0].name == displayName
  {
    WithMessageAppends(vs, displayName, Message(stamp, input, Me, time));
    WithMessageShape(vs, displayName, Message(stamp, input, Me, time));
  }

  // ---------------------------------------------------------------------
  // The screen as an object over the shared store
  // ---------------------------------------------------------------------

  class Screen {
    const store: ChatStore
    const displayName: string
    /** "" when the screen was not opened from a payment. */
    const itemTitle: string
    /** The session object fetched when the screen was opened. */
    const session: Session
    var messages: seq<Message>
    var inputText: string

    /** The fetched session is the one the store finds for the name. */
    ghost predicate Valid()
      reads this, store
    {
      && store.Valid()
      && this !in store.Repr
      && displayName in SessionNames(store.sessions)
      && session == store.sessions[IndexOf(SessionNames(store.sessions), displayName)]
    }

    /** The screen's session object holds the log the store has for its name. */
    lemma SessionIsStored()
      requires Valid()
      ensures session.messages == MessagesOf(store.Snapshot(), displayName)
    {
      assert Names(store.Snapshot()) == SessionNames(store.sessions);
    }

    /** The screen state over a session already fetched for `dn`. */
    constructor (chats: ChatStore, dn: string, title: string, s: Session)
      requires chats.Valid() && dn in SessionNames(chats.sessions)
      requires s == chats.sessions[IndexOf(SessionNames(chats.sessions), dn)]
      ensures Valid()
      ensures store == chats && displayName == dn && itemTitle == title && session == s
      ensures messages == s.messages && inputText == ""
    {
      store, displayName, itemTitle, session := chats, dn, title, s;
      messages, inputText := s.messages, "";
    }

    /** Adds a message as the user to this screen's session and refreshes
        the shown log. */
    method Post(text: string, stamp: string, time: string)
      requires Valid()
      modifies this, store.Repr
      ensures Valid()
      ensures store.Snapshot() == WithMessage(old(store.Snapshot()), displayName, Message(stamp, text, Me, time))
      ensures messages == session.messages && inputText == old(inputText)
    {
      store.AddMessage(displayName, text, Me, stamp, time);
      assert SessionNames(store.sessions)[0] == displayName;
      Refresh();
    }

    /** `setMessages([...session.messages])`: shows the session's log as it
        now is. */
    method Refresh()
      requires Valid()
      modifies this
      ensures Valid() && messages == session.messages && inputText == old(inputText)
      ensures store.Snapshot() == old(store.Snapshot())
    {
      messages := session.messages;
      SnapshotUnchanged(store);
    }

    /** The auto-message effect. */
    method AutoMessage(stamp: string, time: string)
      requires Valid()
      modifies this, store.Repr
      ensures Valid()
      ensures store.Snapshot() == AfterAutoMessage(old(store.Snapshot()), displayName, itemTitle, stamp, time)
      ensures store.Snapshot() != old(store.Snapshot()) ==> messages == session.messages
      ensures store.Snapshot() == old(store.Snapshot()) ==> messages == old(messages)
      ensures inputText == old(inputText)
    {
      if itemTitle != "" {
        var autoText := AutoText(itemTitle);
        SessionIsStored();
        if !AlreadySent(session.messages, autoText) {
          ghost var before := store.Snapshot();
          Post(autoText, stamp, time);
          WithMessageAppends(before, displayName, Message(stamp, autoText, Me, time));
          assert |MessagesOf(store.Snapshot(), displayName)| != |MessagesOf(before, displayName)|;
        }
      }
    }

    /** `handleSend`. */
    method HandleSend(stamp: string, time: string)
      requires Valid()
      modifies this, store.Repr
      ensures Valid()
      ensures store.Snapshot() == AfterSend(old(store.Snapshot()), displayName, old(inputText), stamp, time)
      ensures IsBlank(old(inputText)) ==> messages == old(messages) && inputText == old(inputText)
      ensures !IsBlank(old(inputText)) ==> messages == session.messages && inputText == ""
    {
      if !IsBlank(inputText) {
        var text := inputText;
        inputText := "";
        SnapshotUnchanged(store);
        Post(text, stamp, time);
      }
    }
  }

  /** Opening the screen: get-or-create the session of the display name
      and show its log. */
  method Open(chats: ChatStore, lenderName: string, name: string, title: string) returns (screen: Screen)
    requires chats.Valid()
    modifies chats
    ensures fresh(screen) && screen.Valid()
    ensures screen.store == chats && screen.displayName == DisplayName(lenderName, name) && screen.itemTitle == title
    ensures chats.Snapshot() == WithSession(old(chats.Snapshot()), screen.displayName)
    ensures screen.messages == screen.session.messages && screen.inputText == ""
    ensures fresh(chats.Repr - old(chats.Repr))
  {
    var dn := DisplayName(lenderName, name);
    var s := chats.GetOrCreateSession(dn);
    label Fetched:
    screen := new Screen(chats, dn, title, s);
    SnapshotUnchanged@Fetched(chats);
  }

  /** Mounting the screen: opening it, then running the auto-message
      effect once. */
  method Mount(chats: ChatStore, lenderName: string, name: string, title: string, stamp: string, time: string)
    returns (screen: Screen)
    requires chats.Valid()
    modifies chats.Repr
    ensures fresh(screen) && screen.Valid() && screen.store == chats
    ensures screen.displayName == DisplayName(lenderName, name) && screen.itemTitle == title
    ensures chats.Snapshot() == AfterAutoMessage(WithSession(old(chats.Snapshot()), screen.displayName),
                                                 screen.displayName, title, stamp, time)
  {
    screen := Open(chats, lenderName, name, title);
    screen.AutoMessage(stamp, time);
  }
}
