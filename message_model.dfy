/**
 * The `messages` table (app/models/message.py): immutable rows owned by a
 * conversation and read back in creation order.
 */
module MessageModel {
  import opened Seqs
  import opened Sorting
  import opened Text

  /** The two values the `role` column takes, `'user'` and `'assistant'`. */
  datatype Role = UserRole | AssistantRole

  datatype Message = Message(id: nat, conversationId: nat, role: Role, content: string, createdAt: int)

  /** `Message.to_dict()`; `created_at` stays a timestamp (its ISO-8601 rendering is not modelled). */
  datatype MessageDict = MessageDict(id: nat, role: Role, content: string, createdAt: int)

  function ToDict(m: Message): MessageDict {
    MessageDict(m.id, m.role, m.content, m.createdAt)
  }

  /** The dictionary shows exactly id, role, content and creation time: it hides only the owning conversation. */
  lemma ToDictExposes(m1: Message, m2: Message)
    ensures ToDict(m1) == ToDict(m2) <==> m1 == m2.(conversationId := m1.conversationId)
  {
  }

  function MessageId(m: Message): nat { m.id }
  function CreatedAt(m: Message): int { m.createdAt }

  /** The messages of conversation `cid`, in table order (the `conversation.messages` relationship before ordering). */
  function OfConversation(ms: seq<Message>, cid: nat): (r: seq<Message>)
    ensures forall i :: 0 <= i < |r| ==> r[i].conversationId == cid && r[i] in ms
    ensures forall i :: 0 <= i < |ms| && ms[i].conversationId == cid ==> ms[i] in r
  {
    Filter(ms, (m: Message) => m.conversationId == cid)
  }

  /** A new message adds itself to its own conversation and to no other. */
  lemma OfConversationAppend(ms: seq<Message>, m: Message, cid: nat)
    ensures OfConversation(ms + [m], cid) ==
            OfConversation(ms, cid) + (if m.conversationId == cid then [m] else [])
  {
    FilterAppend(ms, [m], (x: Message) => x.conversationId == cid);
  }

  /** All messages of `cid`, ascending by creation time (`filter_by(...).order_by(Message.created_at)`). */
  function AllConversationMessages(ms: seq<Message>, cid: nat): (r: seq<Message>)
    ensures SortedBy(r, CreatedAt)
    ensures multiset(r) == multiset(OfConversation(ms, cid))
    ensures |r| == |OfConversation(ms, cid)|
    ensures forall i :: 0 <= i < |r| ==> r[i].conversationId == cid && r[i] in ms
  {
    var own := OfConversation(ms, cid);
    var r := SortBy(own, CreatedAt);
    forall i | 0 <= i < |r| ensures r[i].conversationId == cid && r[i] in ms {
      assert r[i] in multiset(own);
    }
    r
  }

  /**
   * `Message.get_conversation_messages(cid, limit)`; a `limit` of 0 stands for
   * `None` and `0`, the falsy limits, which return everything. The limit is
   * applied after the ascending sort, so it keeps the earliest messages.
   */
  function GetConversationMessages(ms: seq<Message>, cid: nat, limit: nat): (r: seq<Message>)
    ensures forall i :: 0 <= i < |r| ==> r[i].conversationId == cid && r[i] in ms
    ensures SortedBy(r, CreatedAt)
    ensures limit != 0 ==> |r| <= limit
    ensures |r| == if limit == 0 || |OfConversation(ms, cid)| < limit then |OfConversation(ms, cid)| else limit
    ensures r == AllConversationMessages(ms, cid)[..|r|]
    ensures limit == 0 ==> multiset(r) == multiset(OfConversation(ms, cid))
  {
    var all := AllConversationMessages(ms, cid);
    var n := if limit != 0 && limit < |all| then limit else |all|;
    SortedPrefix(all, CreatedAt, n);
    assert all[..|all|] == all;
    all[..n]
  }

  /** The table after `Message.create_message(cid, role, content)` at `now`, and the new row. */
  function NewMessage(ms: seq<Message>, cid: nat, role: Role, content: string, now: int): (m: Message)
    ensures forall i :: 0 <= i < |ms| ==> ms[i].id != m.id
    ensures m.conversationId == cid && m.role == role && m.content == content && m.createdAt == now
  {
    Message(NextId(ms, MessageId), cid, role, content, now)
  }
}
