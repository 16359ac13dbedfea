/** The chat session store: a process-wide, ordered list of chat sessions
    (most recently used first), each holding its message log.  Sessions
    are addressed by the counterparty's display name; a session that does
    not exist yet is created on first use and put at the front, and every
    new message moves its session to the front.

    The store is modelled twice: as objects (`ChatStore` holding a list of
    `Session` objects whose logs are updated in place, the way the screens
    share them) and as values (`SessionView`, and the functions
    `WithSession` and `WithMessage` that say what the list of values is
    after each operation).  The methods are proved against the functions;
    the lemmas state what the functions promise. */
module Chat {
  import opened Seqs

  datatype Sender = Me | Them

  /** One chat message.  `id` and `time` come from the clock in the app;
      here they are supplied by the caller. */
  datatype Message = Message(id: string, text: string, sender: Sender, time: string)

  /** The value of one session at one moment. */
  datatype SessionView = SessionView(id: string, name: string, avatar: string, messages: seq<Message>, unread: int)

  /** The generated avatar of a session that was not seeded. */
  function AvatarUrl(name: string): string {
    "https://ui-avatars.com/api/?name=" + name + "&background=random"
  }

  /** The session that get-or-create builds for a name it did not find. */
  function NewSession(name: string): (v: SessionView)
    ensures v.id == name && v.name == name && v.unread == 0 && v.messages == []
  {
    SessionView(name, name, AvatarUrl(name), [], 0)
  }

  function Names(vs: seq<SessionView>): (ns: seq<string>)
    ensures |ns| == |vs|
    ensures forall i :: 0 <= i < |vs| ==> ns[i] == vs[i].name
  {
    seq(|vs|, i requires 0 <= i < |vs| => vs[i].name)
  }

  function Texts(ms: seq<Message>): (ts: seq<string>)
    ensures |ts| == |ms|
    ensures forall i :: 0 <= i < |ms| ==> ts[i] == ms[i].text
  {
    seq(|ms|, i requires 0 <= i < |ms| => ms[i].text)
  }

  /** Every session is keyed by its name: `id == name`. */
  predicate IdsMatchNames(vs: seq<SessionView>) {
    forall i :: 0 <= i < |vs| ==> vs[i].id == vs[i].name
  }

  /** The first session with the given name (`find(c => c.name === name)`). */
  function Find(vs: seq<SessionView>, name: string): (r: Option<SessionView>)
    ensures r.Some? <==> name in Names(vs)
    ensures r.Some? ==> r.value in vs && r.value.name == name
    ensures r.Some? ==> var k := IndexOf(Names(vs), name);
      0 <= k < |vs| && r.value == vs[k] && forall j :: 0 <= j < k ==> vs[j].name != name
  {
    var k := IndexOf(Names(vs), name);
    if k < 0 then None else Some(vs[k])
  }

  /** The log of the session with the given name, empty when there is none. */
  function MessagesOf(vs: seq<SessionView>, name: string): seq<Message> {
    match Find(vs, name)
    case Some(v) => v.messages
    case None => []
  }

  /** The session list after get-or-create for `name`. */
  function WithSession(vs: seq<SessionView>, name: string): (r: seq<SessionView>)
    ensures name in Names(r)
    ensures |vs| <= |r| <= |vs| + 1
    ensures r[|r| - |vs|..] == vs
  {
    if name in Names(vs) then vs
    else
      var r := [NewSession(name)] + vs;
      assert Names(r)[0] == name && r[1..] == vs;
      r
  }

  /** The session list after a message is added to the session `name`:
      the session (created if need be) gets the message at the end of its
      log and is moved to the front. */
  function WithMessage(vs: seq<SessionView>, name: string, msg: Message): (r: seq<SessionView>)
    ensures |r| == |WithSession(vs, name)|
  {
    var ws := WithSession(vs, name);
    var k := IndexOf(Names(ws), name);
    MoveToFront(Pushed(ws, k, msg), k)
  }

  /** The list with `msg` pushed onto the log of its `k`-th session. */
  function Pushed(ws: seq<SessionView>, k: nat, msg: Message): (us: seq<SessionView>)
    requires k < |ws|
    ensures |us| == |ws| && us[k].messages == ws[k].messages + [msg]
    ensures us[..k] == ws[..k] && us[k + 1..] == ws[k + 1..]
    ensures us[k].(messages := ws[k].messages) == ws[k]
  {
    ws[k := ws[k].(messages := ws[k].messages + [msg])]
  }

  // ---------------------------------------------------------------------
  // Get-or-create
  // ---------------------------------------------------------------------

  /** A name already present: the first session with that name is the one
      found and the list is unchanged; an absent name: exactly one fresh
      session goes in front and the old list follows it unchanged. */
  lemma WithSessionCases(vs: seq<SessionView>, name: string)
    ensures name in Names(vs) ==> WithSession(vs, name) == vs && Find(vs, name).Some?
    ensures name !in Names(vs) ==> WithSession(vs, name) == [NewSession(name)] + vs
    ensures Find(WithSession(vs, name), name) ==
            if name in Names(vs) then Find(vs, name) else Some(NewSession(name))
  {
  }

  /** Calling get-or-create twice is the same as calling it once. */
  lemma WithSessionIdempotent(vs: seq<SessionView>, name: string)
    ensures WithSession(WithSession(vs, name), name) == WithSession(vs, name)
  {
  }

  lemma NamesCons(v: SessionView, rest: seq<SessionView>)
    ensures Names([v] + rest) == [v.name] + Names(rest)
  {
    assert forall i :: 0 < i < |rest| + 1 ==> ([v] + rest)[i] == rest[i - 1];
  }

  lemma WithSessionKeepsDistinct(vs: seq<SessionView>, name: string)
    requires Distinct(Names(vs))
    ensures Distinct(Names(WithSession(vs, name)))
  {
    if name !in Names(vs) {
      NamesCons(NewSession(name), vs);
      DistinctCons(name, Names(vs));
    }
  }

  lemma WithSessionKeepsIds(vs: seq<SessionView>, name: string)
    requires IdsMatchNames(vs)
    ensures IdsMatchNames(WithSession(vs, name))
  {
  }

  // ---------------------------------------------------------------------
  // Add-message
  // ---------------------------------------------------------------------

  lemma NamesRemoveAt(vs: seq<SessionView>, k: nat)
    requires k < |vs|
    ensures Names(RemoveAt(vs, k)) == Names(vs)[..k] + Names(vs)[k + 1..]
  {
  }

  /** The sessions other than `name`'s, in their order. */
  function Behind(vs: seq<SessionView>, name: string): (r: seq<SessionView>)
    ensures |r| == if name in Names(vs) then |vs| - 1 else |vs|
  {
    var k := IndexOf(Names(vs), name);
    if k < 0 then vs else RemoveAt(vs, k)
  }

  /** After adding `msg` to `name`, the front session is `name`'s and
      behind it come the previous sessions without `name`'s, in their
      previous order. */
  lemma {:induction false} WithMessageShape(vs: seq<SessionView>, name: string, msg: Message)
    ensures var r := WithMessage(vs, name, msg);
      |r| > 0 && r[0].name == name && r == [r[0]] + Behind(vs, name)
  {
    if name in Names(vs) {
      ShapePresent(vs, name, msg);
    } else {
      ShapeAbsent(vs, name, msg);
    }
  }

  lemma ShapePresent(vs: seq<SessionView>, name: string, msg: Message)
    requires name in Names(vs)
    ensures var r := WithMessage(vs, name, msg);
      |r| > 0 && r[0].name == name && r == [r[0]] + Behind(vs, name)
  {
    var k := IndexOf(Names(vs), name);
    var us := Pushed(vs, k, msg);
    assert WithSession(vs, name) == vs;
    assert WithMessage(vs, name, msg) == MoveToFront(us, k);
    MoveToFrontSplit(us, k);
    assert RemoveAt(us, k) == RemoveAt(vs, k);
  }

  lemma ShapeAbsent(vs: seq<SessionView>, name: string, msg: Message)
    requires name !in Names(vs)
    ensures var r := WithMessage(vs, name, msg);
      |r| > 0 && r[0].name == name && r == [r[0]] + Behind(vs, name)
  {
    var ws := [NewSession(name)] + vs;
    assert WithSession(vs, name) == ws;
    NamesCons(NewSession(name), vs);
    assert IndexOf(Names(ws), name) == 0;
    var us := Pushed(ws, 0, msg);
    assert WithMessage(vs, name, msg) == MoveToFront(us, 0);
    MoveToFrontSplit(us, 0);
    assert RemoveAt(us, 0) == vs;
  }

  /** The front session after adding `msg` to `name` is `name`'s previous
      session (a new one if there was none) with `msg` at the end of its
      log and nothing else about it changed. */
  lemma {:induction false} WithMessageFront(vs: seq<SessionView>, name: string, msg: Message)
    ensures var r := WithMessage(vs, name, msg);
      && |r| > 0
      && r[0].messages == MessagesOf(vs, name) + [msg]
      && match Find(vs, name)
         case Some(v) => r[0] == v.(messages := v.messages + [msg])
         case None => r[0] == NewSession(name).(messages := [msg])
  {
    var ws := WithSession(vs, name);
    if name !in Names(vs) {
      assert Names(ws)[0] == name;
    }
  }

  /** A session count that grows by at most one, by exactly one for a new name. */
  lemma WithMessageCount(vs: seq<SessionView>, name: string, msg: Message)
    ensures |WithMessage(vs, name, msg)| == if name in Names(vs) then |vs| else |vs| + 1
  {
  }

  /** Adding a message to `name` leaves every other name's session as it
      was: same log, same `unread`, same avatar. */
  lemma {:induction false} WithMessageLeavesOthers(vs: seq<SessionView>, name: string, msg: Message, other: string)
    requires other != name
    ensures Find(WithMessage(vs, name, msg), other) == Find(vs, other)
  {
    var r := WithMessage(vs, name, msg);
    WithMessageShape(vs, name, msg);
    FindCons(r[0], Behind(vs, name), other);
    FindBehind(vs, name, other);
  }

  lemma FindCons(v: SessionView, rest: seq<SessionView>, other: string)
    requires v.name != other
    ensures Find([v] + rest, other) == Find(rest, other)
  {
    assert Names([v] + rest) == [v.name] + Names(rest);
    IndexOfCons(v.name, Names(rest), other);
    assert ([v] + rest)[1..] == rest;
  }

  /** Taking out `name`'s session does not change what is found for another name. */
  lemma FindBehind(vs: seq<SessionView>, name: string, other: string)
    requires other != name
    ensures Find(Behind(vs, name), other) == Find(vs, other)
  {
    var k := IndexOf(Names(vs), name);
    if k >= 0 {
      var rest := RemoveAt(vs, k);
      assert Behind(vs, name) == rest;
      var ns := Names(vs);
      NamesRemoveAt(vs, k);
      assert Names(rest) == ns[..k] + ns[k + 1..];
      IndexOfRemoveAt(ns, k, other);
      var j := IndexOf(ns, other);
      var jr := IndexOf(Names(rest), other);
      assert jr == if j < 0 then -1 else if j < k then j else j - 1;
      if j >= 0 {
        assert rest[jr] == vs[j];
        assert Find(rest, other) == Some(vs[j]);
        assert Find(vs, other) == Some(vs[j]);
      } else {
        assert Find(rest, other) == None;
        assert Find(vs, other) == None;
      }
    } else {
      assert Behind(vs, name) == vs;
    }
  }

  /** The log of `name` after the message is the old log plus the message. */
  lemma WithMessageAppends(vs: seq<SessionView>, name: string, msg: Message)
    ensures MessagesOf(WithMessage(vs, name, msg), name) == MessagesOf(vs, name) + [msg]
  {
    WithMessageShape(vs, name, msg);
    WithMessageFront(vs, name, msg);
    var r := WithMessage(vs, name, msg);
    assert Names(r)[0] == name;
  }

  /** With distinct names, the sessions behind the front have distinct
      names none of which is `name`. */
  lemma BehindDistinct(vs: seq<SessionView>, name: string)
    requires Distinct(Names(vs))
    ensures Distinct(Names(Behind(vs, name))) && name !in Names(Behind(vs, name))
  {
    var k := IndexOf(Names(vs), name);
    if k >= 0 {
      NamesRemoveAt(vs, k);
      RemoveAtDistinct(Names(vs), k);
      assert Names(Behind(vs, name)) == RemoveAt(Names(vs), k);
    } else {
      assert Behind(vs, name) == vs;
    }
  }

  lemma WithMessageKeepsDistinct(vs: seq<SessionView>, name: string, msg: Message)
    requires Distinct(Names(vs))
    ensures Distinct(Names(WithMessage(vs, name, msg)))
  {
    var r := WithMessage(vs, name, msg);
    var rest := Behind(vs, name);
    WithMessageShape(vs, name, msg);
    BehindDistinct(vs, name);
    NamesCons(r[0], rest);
    DistinctCons(name, Names(rest));
  }

  lemma BehindIds(vs: seq<SessionView>, name: string)
    requires IdsMatchNames(vs)
    ensures IdsMatchNames(Behind(vs, name))
  {
    var rest := Behind(vs, name);
    var k := IndexOf(Names(vs), name);
    if k >= 0 {
      forall i | 0 <= i < |rest| ensures rest[i].id == rest[i].name {
        assert rest[i] == vs[if i < k then i else i + 1];
      }
    }
  }

  lemma WithMessageKeepsIds(vs: seq<SessionView>, name: string, msg: Message)
    requires IdsMatchNames(vs)
    ensures IdsMatchNames(WithMessage(vs, name, msg))
  {
    var r := WithMessage(vs, name, msg);
    var rest := Behind(vs, name);
    WithMessageShape(vs, name, msg);
    WithMessageFront(vs, name, msg);
    BehindIds(vs, name);
    assert r[0].id == r[0].name;
    forall i | 0 < i < |r| ensures r[i].id == r[i].name {
      assert r[i] == rest[i - 1];
    }
  }

  /** How many messages of `name`'s log carry the text `text`. */
  function CountText(vs: seq<SessionView>, name: string, text: string): nat {
    Count(Texts(MessagesOf(vs, name)), text)
  }

  /** Adding a message with text `text` raises that text's count by one. */
  lemma WithMessageCountText(vs: seq<SessionView>, name: string, msg: Message)
    ensures CountText(WithMessage(vs, name, msg), name, msg.text) == CountText(vs, name, msg.text) + 1
  {
    WithMessageAppends(vs, name, msg);
    var ms := MessagesOf(vs, name);
    TextsAppend(ms, msg);
    CountAppend(Texts(ms), [msg.text], msg.text);
  }

  lemma TextsAppend(ms: seq<Message>, msg: Message)
    ensures Texts(ms + [msg]) == Texts(ms) + [msg.text]
  {
  }

  // ---------------------------------------------------------------------
  // The seed
  // ---------------------------------------------------------------------

  /** The sessions the store starts with. */
  function SeedChats(): (vs: seq<SessionView>)
    ensures Distinct(Names(vs)) && IdsMatchNames(vs)
  {
    [SessionView("Sarah Jenkins", "Sarah Jenkins", "https://randomuser.me/api/portraits/women/1.jpg",
                 [Message("1", "Hi! Is the calculus book still available?", Me, "Yesterday"),
                  Message("2", "Yes it is!", Them, "Yesterday")], 0)]
  }

  // ---------------------------------------------------------------------
  // The store as objects
  // ---------------------------------------------------------------------

  /** A chat session.  The key fields never change after creation; the log
      grows in place. */
  class Session {
    const id: string
    const name: string
    const avatar: string
    var messages: seq<Message>
    var unread: int

    constructor (v: SessionView)
      ensures View() == v
    {
      id, name, avatar := v.id, v.name, v.avatar;
      messages, unread := v.messages, v.unread;
    }

    function View(): SessionView
      reads this
    {
      SessionView(id, name, avatar, messages, unread)
    }
  }

  /** The names of the session objects, in order: the counterpart of
      `Names` over the values (`ChatStore.Snapshot` proves the two agree). */
  function SessionNames(ss: seq<Session>): (ns: seq<string>)
    ensures |ns| == |ss|
    ensures forall i :: 0 <= i < |ss| ==> ns[i] == ss[i].name
  {
    seq(|ss|, i requires 0 <= i < |ss| => ss[i].name)
  }

  /** Moving a session object to the front moves its value to the front. */
  lemma ViewsMoveToFront(ss: seq<Session>, us: seq<SessionView>, k: nat)
    requires k < |ss| == |us|
    requires forall i :: 0 <= i < |ss| ==> ss[i].View() == us[i]
    ensures forall i :: 0 <= i < |ss| ==> MoveToFront(ss, k)[i].View() == MoveToFront(us, k)[i]
  {
    var ms, mu := MoveToFront(ss, k), MoveToFront(us, k);
    forall i | 0 <= i < |ss| ensures ms[i].View() == mu[i] {
      MoveToFrontAt(ss, k, i);
      MoveToFrontAt(us, k, i);
    }
  }

  /** A store whose list and session objects are untouched has the same
      value. */
  twostate lemma SnapshotUnchanged(c: ChatStore)
    requires unchanged(c)
    requires forall i :: 0 <= i < |c.sessions| ==> unchanged(c.sessions[i])
    ensures c.Snapshot() == old(c.Snapshot())
  {
  }

  /** `GlobalChats` and the two operations the screens call on it. */
  class ChatStore {
    var sessions: seq<Session>
    /** The store and its session objects. */
    ghost var Repr: set<object>

    /** No session object is listed twice, every session has `id == name`,
        and every session belongs to the store's footprint. */
    ghost predicate Valid()
      reads this
    {
      && this in Repr
      && (forall i :: 0 <= i < |sessions| ==> sessions[i] in Repr)
      && Distinct(sessions)
      && (forall i :: 0 <= i < |sessions| ==> sessions[i].id == sessions[i].name)
    }

    /** The list of session values at this moment. */
    function Snapshot(): (vs: seq<SessionView>)
      reads this, sessions
      ensures |vs| == |sessions|
      ensures forall i :: 0 <= i < |sessions| ==> vs[i] == sessions[i].View()
      ensures Names(vs) == SessionNames(sessions)
    {
      seq(|sessions|, i reads this, sessions requires 0 <= i < |sessions| => sessions[i].View())
    }

    /** The store as the app starts it. */
    constructor Seeded()
      ensures Valid() && Snapshot() == SeedChats()
      ensures fresh(Repr)
    {
      var s := new Session(SeedChats()[0]);
      sessions := [s];
      Repr := {this, s};
    }

    /** `getOrCreateChatSession`. */
    method GetOrCreateSession(name: string) returns (s: Session)
      requires Valid()
      modifies this
      ensures Valid()
      ensures Snapshot() == WithSession(old(Snapshot()), name)
      ensures s in sessions && s.name == name && name in SessionNames(sessions)
      ensures s == sessions[IndexOf(SessionNames(sessions), name)]
      ensures name in old(SessionNames(sessions)) ==> sessions == old(sessions)
      ensures name !in old(SessionNames(sessions)) ==> fresh(s) && sessions == [s] + old(sessions)
      ensures fresh(Repr - old(Repr))
    {
      var k := IndexOf(SessionNames(sessions), name);
      if k >= 0 {
        s := sessions[k];
      } else {
        s := CreateSession(name);
      }
    }

    /** The branch of get-or-create for a name with no session: a fresh
        session goes in front (`unshift`). */
    method CreateSession(name: string) returns (s: Session)
      requires Valid() && name !in SessionNames(sessions)
      modifies this
      ensures Valid() && fresh(s) && sessions == [s] + old(sessions) && Repr == old(Repr) + {s}
      ensures s.name == name && Snapshot() == [NewSession(name)] + old(Snapshot())
    {
      s := new Session(NewSession(name));
      sessions := [s] + sessions;
      Repr := Repr + {s};
      assert Snapshot() == [NewSession(name)] + old(Snapshot());
    }

    /** `session.messages.push(msg)` on a listed session. */
    method PushMessage(s: Session, msg: Message)
      requires Valid() && s in sessions
      modifies s
      ensures Valid()
      ensures s.messages == old(s.messages) + [msg]
      ensures Snapshot() == Pushed(old(Snapshot()), IndexOf(sessions, s), msg)
    {
      ghost var k := IndexOf(sessions, s);
      ghost var us := Pushed(Snapshot(), k, msg);
      s.messages := s.messages + [msg];
      assert Snapshot() == us by {
        forall i | 0 <= i < |sessions| && i != k ensures sessions[i].View() == us[i] {
          assert sessions[i] != s;
        }
      }
    }

    /** `splice(index, 1)` then `unshift`: the session at `index` goes to
        the front, the others keep their order. */
    method MoveSessionToFront(index: nat)
      requires Valid() && index < |sessions|
      modifies this
      ensures Valid()
      ensures sessions == MoveToFront(old(sessions), index) && Repr == old(Repr)
      ensures Snapshot() == MoveToFront(old(Snapshot()), index)
    {
      ViewsMoveToFront(sessions, Snapshot(), index);
      MoveToFrontDistinct(sessions, index);
      forall i | 0 <= i < |sessions| ensures MoveToFront(sessions, index)[i] in Repr {
        MoveToFrontAt(sessions, index, i);
      }
      sessions := MoveToFront(sessions, index);
    }

    /** `addMessageToChat`: get-or-create the session, append the message
        to its log, move the session to the front. */
    method AddMessage(name: string, text: string, sender: Sender, stamp: string, time: string)
      requires Valid()
      modifies Repr
      ensures Valid() && fresh(Repr - old(Repr))
      ensures Snapshot() == WithMessage(old(Snapshot()), name, Message(stamp, text, sender, time))
      ensures sessions[0].name == name
      ensures name in old(SessionNames(sessions)) ==> sessions[0] == old(sessions[IndexOf(SessionNames(sessions), name)])
      ensures forall x :: x in old(sessions) ==> x in sessions
    {
      ghost var vs := Snapshot();
      var s := GetOrCreateSession(name);
      ghost var k := IndexOf(SessionNames(sessions), name);
      IndexOfDistinct(sessions, k);
      var msg := Message(stamp, text, sender, time);
      PushMessage(s, msg);
      ghost var us := Snapshot();
      ghost var before := sessions;
      var index := IndexOf(sessions, s);
      if index > -1 {
        MoveToFrontPermutes(sessions, index);
        MoveSessionToFront(index);
        forall x | x in before ensures x in sessions {
          assert x in multiset(before);
        }
      }
    }
  }
}
