/**
 * The conversation store (static/js/conversation-manager.js): an ordered list of
 * conversations, newest first, and the id of the current one. Ids and timestamps
 * come from the clock and are parameters here; the browser's `localStorage` is
 * the ghost field `saved`, which every `save()` overwrites.
 */
module Conversations {
  import opened Wrappers

  const TitleMaxLength := 30
  /** The titles a conversation starts with, in either language. */
  const DefaultTitles: set<string> := {"新对话", "New Chat"}

  datatype Role = User | Assistant
  datatype Message = Message(id: string, role: Role, content: string, timestamp: string)
  datatype Conversation = Conversation(id: string, title: string, messages: seq<Message>, createdAt: string, updatedAt: string)

  /**
   * The title derived from a first user message: the content itself when it has
   * at most 30 characters, otherwise its first 30 characters followed by `...`.
   */
  function DerivedTitle(content: string): (r: string)
    ensures |r| <= TitleMaxLength + 3
    ensures |content| <= TitleMaxLength ==> r == content
    ensures |content| > TitleMaxLength ==> |r| == TitleMaxLength + 3 && r[..TitleMaxLength] == content[..TitleMaxLength] && r[TitleMaxLength..] == "..."
  {
    if |content| > TitleMaxLength then content[..TitleMaxLength] + "..." else content
  }

  /** A derived title always starts with the first characters of the content, and adds at most the ellipsis. */
  lemma DerivedTitleKeepsPrefix(content: string)
    ensures var r := DerivedTitle(content);
      var n := if |content| < TitleMaxLength then |content| else TitleMaxLength;
      r[..n] == content[..n] && |r| <= n + 3
  {
  }

  /** The position of the first conversation with id `id`, as `find` visits them. */
  function FirstIndexOf(convs: seq<Conversation>, id: string): (r: Option<nat>)
    ensures r.Some? ==> r.value < |convs| && convs[r.value].id == id
    ensures r.Some? ==> forall k :: 0 <= k < r.value ==> convs[k].id != id
    ensures r.None? <==> forall k :: 0 <= k < |convs| ==> convs[k].id != id
  {
    if convs == [] then None
    else if convs[0].id == id then Some(0)
    else
      match FirstIndexOf(convs[1..], id)
      case None => None
      case Some(k) => Some(k + 1)
  }

  /** `conversations.filter(c => c.id !== id)` */
  function Without(convs: seq<Conversation>, id: string): (r: seq<Conversation>)
    ensures |r| <= |convs|
    ensures forall k :: 0 <= k < |r| ==> r[k].id != id && r[k] in convs
    ensures forall c :: c in convs && c.id != id ==> c in r
  {
    if convs == [] then []
    else if convs[0].id == id then Without(convs[1..], id)
    else [convs[0]] + Without(convs[1..], id)
  }

  /** The filter keeps order: filtering a concatenation filters each part, in turn. */
  lemma {:induction false} WithoutAppend(a: seq<Conversation>, b: seq<Conversation>, id: string)
    ensures Without(a + b, id) == Without(a, id) + Without(b, id)
  {
    if a != [] {
      assert (a + b)[0] == a[0];
      assert (a + b)[1..] == a[1..] + b;
      WithoutAppend(a[1..], b, id);
    } else {
      assert a + b == b;
    }
  }

  /** No two conversations share an id. */
  predicate UniqueIds(convs: seq<Conversation>) {
    forall i, j :: 0 <= i < j < |convs| ==> convs[i].id != convs[j].id
  }

  /** With unique ids, deleting one id from a list of at least two leaves at least one conversation. */
  lemma {:induction false} DeleteLeavesOne(convs: seq<Conversation>, id: string)
    requires UniqueIds(convs) && |convs| >= 2
    ensures |Without(convs, id)| >= 1
  {
    if convs[0].id == id {
      assert convs[1].id != id;
      assert convs[1] in convs;
    } else {
      assert convs[0] in convs;
    }
  }

  /** With unique ids, deleting removes exactly the one conversation that has the id, if any. */
  lemma {:induction false} DeleteRemovesOne(convs: seq<Conversation>, id: string)
    requires UniqueIds(convs)
    ensures FirstIndexOf(convs, id).Some? ==> |Without(convs, id)| == |convs| - 1
    ensures FirstIndexOf(convs, id).None? ==> Without(convs, id) == convs
  {
    if convs != [] {
      assert UniqueIds(convs[1..]) by {
        forall i, j | 0 <= i < j < |convs[1..]| ensures convs[1..][i].id != convs[1..][j].id {
          assert convs[1..][i] == convs[i + 1] && convs[1..][j] == convs[j + 1];
        }
      }
      DeleteRemovesOne(convs[1..], id);
      if convs[0].id == id {
        assert forall k :: 0 <= k < |convs[1..]| ==> convs[1..][k].id != id by {
          forall k | 0 <= k < |convs[1..]| ensures convs[1..][k].id != id {
            assert convs[1..][k] == convs[k + 1];
          }
        }
        assert Without(convs[1..], id) == convs[1..] by {
          NoMatchKeepsAll(convs[1..], id);
        }
      } else if FirstIndexOf(convs[1..], id).None? {
        assert [convs[0]] + convs[1..] == convs;
      }
    }
  }

  lemma {:induction false} NoMatchKeepsAll(convs: seq<Conversation>, id: string)
    requires forall k :: 0 <= k < |convs| ==> convs[k].id != id
    ensures Without(convs, id) == convs
  {
    if convs != [] {
      NoMatchKeepsAll(convs[1..], id);
      assert [convs[0]] + convs[1..] == convs;
    }
  }

  /** How a call of `delete(id)` ended. */
  datatype DeleteOutcome =
    | KeptLastOne      // one conversation left: the user is told to keep it, `false`
    | Declined         // the user did not confirm, `false`
    | Deleted          // `true`
    | Threw            // the current conversation was deleted and none is left: `conversations[0].id` throws

  /**
   * `addMessage(role, content)` applied to one conversation: the message is
   * appended, `updatedAt` is its timestamp, and a first user message replaces a
   * default title by the derived one.
   */
  function WithMessage(c: Conversation, m: Message): (r: Conversation)
    ensures r.messages == c.messages + [m] && r.updatedAt == m.timestamp
    ensures r.id == c.id && r.createdAt == c.createdAt
    ensures r.title != c.title ==> m.role == User && c.messages == [] && c.title in DefaultTitles
    ensures m.role == User && c.messages == [] && c.title in DefaultTitles ==> r.title == DerivedTitle(m.content)
  {
    var messages := c.messages + [m];
    var isFirstUserMessage := m.role == User && |messages| == 1;
    var title := if isFirstUserMessage && c.title in DefaultTitles then DerivedTitle(m.content) else c.title;
    Conversation(c.id, title, messages, c.createdAt, m.timestamp)
  }

  /** The list after the message at `index` of conversation `convId` gets `content`; unchanged when there is no such message. */
  function WithContent(convs: seq<Conversation>, convId: string, index: nat, content: string): (r: seq<Conversation>)
    ensures |r| == |convs|
    ensures forall k :: 0 <= k < |r| ==> r[k].id == convs[k].id && |r[k].messages| == |convs[k].messages|
    ensures var k := FirstIndexOf(convs, convId);
      forall j :: 0 <= j < |convs| && (k.None? || j != k.value) ==> r[j] == convs[j]
    ensures var k := FirstIndexOf(convs, convId);
      k.Some? ==> && r[k.value].title == convs[k.value].title && r[k.value].createdAt == convs[k.value].createdAt
                  && r[k.value].updatedAt == convs[k.value].updatedAt
                  && forall m :: 0 <= m < |convs[k.value].messages| && m != index ==>
                       r[k.value].messages[m] == convs[k.value].messages[m]
    ensures var k := FirstIndexOf(convs, convId);
      k.Some? && index < |convs[k.value].messages| ==>
        r[k.value].messages[index] == convs[k.value].messages[index].(content := content)
    ensures var k := FirstIndexOf(convs, convId);
      k.Some? && index >= |convs[k.value].messages| ==> r == convs
  {
    var k := FirstIndexOf(convs, convId);
    if k.Some? && index < |convs[k.value].messages| then
      var c := convs[k.value];
      convs[k.value := c.(messages := c.messages[index := c.messages[index].(content := content)])]
    else convs
  }

  /** The content of the message at `index` of conversation `convId`, if there is one. */
  function ContentAt(convs: seq<Conversation>, convId: string, index: nat): Option<string> {
    var k := FirstIndexOf(convs, convId);
    if k.Some? && index < |convs[k.value].messages| then Some(convs[k.value].messages[index].content) else None
  }

  /** Writing a message's content and reading it back gives the content written. */
  lemma ContentRoundTrip(convs: seq<Conversation>, convId: string, index: nat, content: string)
    requires ContentAt(convs, convId, index).Some?
    ensures ContentAt(WithContent(convs, convId, index, content), convId, index) == Some(content)
  {
    var r := WithContent(convs, convId, index, content);
    var k := FirstIndexOf(convs, convId).value;
    assert forall j :: 0 <= j < |r| ==> r[j].id == convs[j].id;
    assert FirstIndexOf(r, convId) == Some(k) by {
      FirstIndexOfSameIds(convs, r, convId);
    }
  }

  /** `find` by id only looks at the ids. */
  lemma {:induction false} FirstIndexOfSameIds(a: seq<Conversation>, b: seq<Conversation>, id: string)
    requires |a| == |b| && forall j :: 0 <= j < |a| ==> a[j].id == b[j].id
    ensures FirstIndexOf(a, id) == FirstIndexOf(b, id)
  {
    if a != [] {
      FirstIndexOfSameIds(a[1..], b[1..], id);
    }
  }

  class ConversationManager {
    /** `conversations`, newest first. */
    var conversations: seq<Conversation>
    /** `currentConversationId` */
    var currentId: string
    /** What `localStorage` holds after the last `save()`. */
    ghost var saved: seq<Conversation>

    /**
     * Loads the stored list; an empty one gets a fresh conversation (with the
     * given clock values and localized title), otherwise the first is current.
     */
    constructor(loaded: seq<Conversation>, ghost stored: seq<Conversation>, newId: string, newTitle: string, now: string)
      ensures loaded != [] ==> conversations == loaded && currentId == loaded[0].id && saved == stored
      ensures loaded == [] ==> conversations == [Conversation(newId, newTitle, [], now, now)]
      ensures loaded == [] ==> currentId == newId && saved == conversations
    {
      conversations := loaded;
      saved := stored;
      currentId := if |loaded| == 0 then "" else loaded[0].id;
      new;
      if |loaded| == 0 {
        var _ := CreateNew(newId, newTitle, now);
      }
    }

    /** `createNew()`: prepends an empty conversation, makes it current and saves. */
    method CreateNew(newId: string, newTitle: string, now: string) returns (c: Conversation)
      modifies this
      ensures c == Conversation(newId, newTitle, [], now, now)
      ensures conversations == [c] + old(conversations) && currentId == newId && saved == conversations
    {
      c := Conversation(newId, newTitle, [], now, now);
      conversations := [c] + conversations;
      currentId := c.id;
      saved := conversations;
    }

    /** `delete(id)`, with the user's answer to the confirmation dialog as `confirmed`. */
    method Delete(id: string, confirmed: bool) returns (outcome: DeleteOutcome)
      modifies this
      ensures |old(conversations)| == 1 <==> outcome == KeptLastOne
      ensures outcome == Declined <==> |old(conversations)| != 1 && !confirmed
      ensures outcome == KeptLastOne || outcome == Declined ==>
        conversations == old(conversations) && currentId == old(currentId) && saved == old(saved)
      ensures outcome == Deleted || outcome == Threw ==> conversations == Without(old(conversations), id)
      ensures outcome == Threw <==> |old(conversations)| != 1 && confirmed && old(currentId) == id && conversations == []
      ensures outcome == Threw ==> currentId == old(currentId) && saved == old(saved)
      ensures outcome == Deleted ==> saved == conversations
      ensures outcome == Deleted && old(currentId) == id ==> currentId == conversations[0].id
      ensures outcome == Deleted && old(currentId) != id ==> currentId == old(currentId)
    {
      if |conversations| == 1 {
        return KeptLastOne;
      }
      if !confirmed {
        return Declined;
      }
      conversations := Without(conversations, id);
      if currentId == id {
        if |conversations| == 0 {
          return Threw;
        }
        currentId := conversations[0].id;
      }
      saved := conversations;
      return Deleted;
    }

    /** `switchTo(id)` */
    method SwitchTo(id: string)
      modifies this
      ensures currentId == id && conversations == old(conversations) && saved == old(saved)
    {
      currentId := id;
    }

    /** `getCurrent()`: the first conversation whose id is the current id, if any. */
    method GetCurrent() returns (r: Option<Conversation>)
      ensures r.Some? <==> exists k :: 0 <= k < |conversations| && conversations[k].id == currentId
      ensures r.Some? ==> r.value.id == currentId && r.value in conversations
      ensures r.Some? ==> r.value == conversations[FirstIndexOf(conversations, currentId).value]
    {
      var i := 0;
      while i < |conversations|
        invariant 0 <= i <= |conversations|
        invariant forall k :: 0 <= k < i ==> conversations[k].id != currentId
      {
        if conversations[i].id == currentId {
          return Some(conversations[i]);
        }
        i := i + 1;
      }
      return None;
    }

    /**
     * `addMessage(role, content)`: appends to the current conversation and saves.
     * Without a current conversation the call throws; that is `None` here and
     * nothing changes.
     */
    method AddMessage(role: Role, content: string, msgId: string, now: string) returns (r: Option<Message>)
      modifies this
      ensures FirstIndexOf(old(conversations), currentId).None? ==>
        r == None && conversations == old(conversations) && saved == old(saved)
      ensures FirstIndexOf(old(conversations), currentId).Some? ==>
        var k := FirstIndexOf(old(conversations), currentId).value;
        && r == Some(Message(msgId, role, content, now))
        && conversations == old(conversations)[k := WithMessage(old(conversations)[k], r.value)]
        && saved == conversations
      ensures currentId == old(currentId)
    {
      var k := FirstIndexOf(conversations, currentId);
      if k.None? {
        return None;
      }
      var message := Message(msgId, role, content, now);
      var c := conversations[k.value];
      var messages := c.messages + [message];
      var title := c.title;
      var isFirstUserMessage := role == User && |messages| == 1;
      if isFirstUserMessage && c.title in DefaultTitles {
        title := if |content| > TitleMaxLength then content[..TitleMaxLength] + "..." else content;
      }
      conversations := conversations[k.value := Conversation(c.id, title, messages, c.createdAt, now)];
      saved := conversations;
      return Some(message);
    }

    /**
     * The in-place update of a message the caller holds a reference to
     * (`assistantMessage.content = fullContent`): the message at `index` in the
     * conversation with id `convId` gets the new content. Nothing is saved.
     */
    method SetMessageContent(convId: string, index: nat, content: string)
      modifies this
      ensures conversations == WithContent(old(conversations), convId, index, content)
      ensures currentId == old(currentId) && saved == old(saved)
    {
      var k := FirstIndexOf(conversations, convId);
      if k.Some? && index < |conversations[k.value].messages| {
        var c := conversations[k.value];
        var m := c.messages[index].(content := content);
        conversations := conversations[k.value := c.(messages := c.messages[index := m])];
      }
    }

    /** `save()` */
    method Save()
      modifies this
      ensures saved == conversations && conversations == old(conversations) && currentId == old(currentId)
    {
      saved := conversations;
    }

    /** `getMessages()`: the current conversation's messages, or none when there is no current conversation. */
    method GetMessages() returns (ms: seq<Message>)
      ensures FirstIndexOf(conversations, currentId).None? ==> ms == []
      ensures FirstIndexOf(conversations, currentId).Some? ==> ms == conversations[FirstIndexOf(conversations, currentId).value].messages
    {
      var c := GetCurrent();
      ms := if c.Some? then c.value.messages else [];
    }
  }

  /** A conversation's messages only grow: adding a message keeps every earlier one in place. */
  lemma MessagesOnlyGrow(c: Conversation, m: Message)
    ensures WithMessage(c, m).messages[..|c.messages|] == c.messages
    ensures WithMessage(c, m).messages[|c.messages|] == m
  {
    assert (c.messages + [m])[..|c.messages|] == c.messages;
  }

  /** The title rule fires at most once: once a conversation has a message, adding more never changes its title. */
  lemma TitleSetOnce(c: Conversation, m1: Message, m2: Message)
    ensures WithMessage(WithMessage(c, m1), m2).title == WithMessage(c, m1).title
  {
  }
}
