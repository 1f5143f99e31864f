/** The transcript items the component reads, and `cancelAssistantSpeech`:
    the events that interrupt the assistant's most recent message. */
module Interrupt {
  import opened Wrappers
  import opened Events

  datatype Role = UserRole | AssistantRole

  datatype ItemStatus = InProgress | Done

  /** One transcript entry: its own id, who spoke, whether the message is
      complete, when it was created, and the id of the backend's message. */
  datatype TranscriptItem = TranscriptItem(id: string, role: Role, status: ItemStatus, createdAtMs: int, itemId: string)

  /** `[...items].reverse()`. */
  function Reversed(items: seq<TranscriptItem>): (r: seq<TranscriptItem>)
    ensures |r| == |items|
    ensures forall i :: 0 <= i < |items| ==> r[i] == items[|items| - 1 - i]
  {
    if items == [] then [] else Reversed(items[1..]) + [items[0]]
  }

  /** The position of the first assistant item, or -1 when there is none. */
  function FirstAssistantIndex(items: seq<TranscriptItem>): (k: int)
    ensures -1 <= k < |items|
    ensures k >= 0 ==> items[k].role == AssistantRole && forall j :: 0 <= j < k ==> items[j].role != AssistantRole
    ensures k == -1 ==> forall j :: 0 <= j < |items| ==> items[j].role != AssistantRole
  {
    if items == [] then -1
    else if items[0].role == AssistantRole then 0
    else
      var k := FirstAssistantIndex(items[1..]);
      if k == -1 then -1 else k + 1
  }

  /** `items.find(item => item.role === "assistant")`. */
  function FindAssistant(items: seq<TranscriptItem>): Option<TranscriptItem> {
    var k := FirstAssistantIndex(items);
    if k == -1 then None else Some(items[k])
  }

  /** The position of the latest assistant item, or -1 when there is none:
      the reference for what "most recent" means. */
  function LastAssistantIndex(items: seq<TranscriptItem>): (k: int)
    ensures -1 <= k < |items|
    ensures k >= 0 ==> items[k].role == AssistantRole && forall j :: k < j < |items| ==> items[j].role != AssistantRole
    ensures k == -1 ==> forall j :: 0 <= j < |items| ==> items[j].role != AssistantRole
  {
    if items == [] then -1
    else if items[|items| - 1].role == AssistantRole then |items| - 1
    else LastAssistantIndex(items[..|items| - 1])
  }

  /** The component's lookup: the first assistant item of the reversed list. */
  function MostRecentAssistantMessage(items: seq<TranscriptItem>): Option<TranscriptItem> {
    FindAssistant(Reversed(items))
  }

  /** Searching the reversed list finds the latest assistant item, by
      position in the transcript and not by any id. */
  lemma MostRecentIsLast(items: seq<TranscriptItem>)
    ensures var k := LastAssistantIndex(items);
      MostRecentAssistantMessage(items) == (if k == -1 then None else Some(items[k]))
  {
    var rev := Reversed(items);
    var i := FirstAssistantIndex(rev);
    var k := LastAssistantIndex(items);
    assert k >= 0 ==> rev[|items| - 1 - k] == items[k];
    if i >= 0 {
      var k' := |items| - 1 - i;
      assert items[k'] == rev[i];
      assert forall j :: k' < j < |items| ==> items[j] == rev[|items| - 1 - j];
      assert k == k';
    }
  }

  /** The events `cancelAssistantSpeech` sends, at time `now` in milliseconds:
      none without an assistant item or when the latest one is done;
      otherwise a truncate of that item at the audio played so far, then a
      cancel of the response. */
  function CancelEvents(items: seq<TranscriptItem>, now: int): (r: seq<ClientEvent>)
    ensures var k := LastAssistantIndex(items);
      && (r == [] <==> k == -1 || items[k].status == Done)
      && (r != [] ==>
            r == [ConversationItemTruncate(items[k].itemId, 0, now - items[k].createdAtMs), ResponseCancel])
  {
    MostRecentIsLast(items);
    match MostRecentAssistantMessage(items)
    case None => []
    case Some(m) =>
      if m.status == Done then []
      else [ConversationItemTruncate(m.itemId, 0, now - m.createdAtMs), ResponseCancel]
  }

  /** Items that are not the assistant's, added after the others, leave the
      latest assistant item where it was. */
  lemma LastAssistantIgnoresLater(items: seq<TranscriptItem>, later: seq<TranscriptItem>)
    requires forall j :: 0 <= j < |later| ==> later[j].role != AssistantRole
    ensures LastAssistantIndex(items + later) == LastAssistantIndex(items)
  {
    var all := items + later;
    var k, k' := LastAssistantIndex(items), LastAssistantIndex(all);
    assert forall j :: 0 <= j < |items| ==> all[j] == items[j];
    assert forall j :: |items| <= j < |all| ==> all[j] == later[j - |items|];
    if k' >= 0 {
      assert k' < |items|;
    }
  }

  /** Items that are not the assistant's, added after the others, leave the
      most recent assistant message as it was. */
  lemma MostRecentIgnoresLater(items: seq<TranscriptItem>, later: seq<TranscriptItem>)
    requires forall j :: 0 <= j < |later| ==> later[j].role != AssistantRole
    ensures MostRecentAssistantMessage(items + later) == MostRecentAssistantMessage(items)
  {
    LastAssistantIgnoresLater(items, later);
    var k := LastAssistantIndex(items);
    MostRecentIsLast(items);
    MostRecentIsLast(items + later);
    assert k >= 0 ==> (items + later)[k] == items[k];
  }

  /** Items that are not the assistant's, added after the others, do not
      change what an interruption sends. */
  lemma CancelIgnoresLaterUserItems(items: seq<TranscriptItem>, later: seq<TranscriptItem>, now: int)
    requires forall j :: 0 <= j < |later| ==> later[j].role != AssistantRole
    ensures CancelEvents(items + later, now) == CancelEvents(items, now)
  {
    MostRecentIgnoresLater(items, later);
  }
}
