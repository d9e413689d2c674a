/** The conversation list of the chat view, newest first, and the three list updates
    `sendMessage` applies to it: prepend a placeholder, replace by id, remove by id. */
module Conversations {

  /** One user message and its AI response. Identifiers are modelled as integers: the
      temporary one is a clock value, the confirmed one comes from the server. */
  datatype Conversation = Conversation(
    id: int,
    userMessage: string,
    aiResponse: string,
    timestamp: string,
    loading: bool)

  /** The optimistic entry shown while the response is pending. */
  function Placeholder(tmp: int, userMessage: string, timestamp: string): (c: Conversation)
    ensures c.id == tmp && c.userMessage == userMessage && c.timestamp == timestamp
    ensures c.aiResponse == "..." && c.loading
  {
    Conversation(tmp, userMessage, "...", timestamp, true)
  }

  /** No entry of `list` carries the identifier `id`. */
  predicate FreshId(list: seq<Conversation>, id: int) {
    forall i :: 0 <= i < |list| ==> list[i].id != id
  }

  /** `[c, ...list]`: one entry more, at the head; every earlier entry moves down by one. */
  function Prepend(c: Conversation, list: seq<Conversation>): (r: seq<Conversation>)
    ensures |r| == |list| + 1 && r[0] == c
    ensures forall i :: 0 <= i < |list| ==> r[i + 1] == list[i]
  {
    [c] + list
  }

  /** `list.map(conv => conv.id === tmp ? confirmed : conv)`. */
  function ReplaceById(list: seq<Conversation>, tmp: int, confirmed: Conversation): (r: seq<Conversation>)
    ensures |r| == |list|
    ensures forall i :: 0 <= i < |list| && list[i].id == tmp ==> r[i] == confirmed
    ensures forall i :: 0 <= i < |list| && list[i].id != tmp ==> r[i] == list[i]
  {
    if list == [] then []
    else [if list[0].id == tmp then confirmed else list[0]] + ReplaceById(list[1..], tmp, confirmed)
  }

  /** `list.filter(conv => conv.id !== tmp)`. */
  function RemoveById(list: seq<Conversation>, tmp: int): (r: seq<Conversation>)
    ensures |r| <= |list|
    ensures FreshId(r, tmp)
    ensures forall c :: c in r <==> c in list && c.id != tmp
    ensures FreshId(list, tmp) ==> r == list
  {
    if list == [] then []
    else if list[0].id == tmp then RemoveById(list[1..], tmp)
    else [list[0]] + RemoveById(list[1..], tmp)
  }

  /** Removal works entry by entry, so the surviving entries keep their relative order. */
  lemma {:induction false} RemoveByIdConcat(a: seq<Conversation>, b: seq<Conversation>, tmp: int)
    ensures RemoveById(a + b, tmp) == RemoveById(a, tmp) + RemoveById(b, tmp)
  {
    if a == [] {
      assert a + b == b;
    } else {
      assert (a + b)[0] == a[0] && (a + b)[1..] == a[1..] + b;
      RemoveByIdConcat(a[1..], b, tmp);
    }
  }

  /** The number of entries removed is the number of entries carrying `tmp`. */
  function CountId(list: seq<Conversation>, id: int): nat {
    if list == [] then 0 else (if list[0].id == id then 1 else 0) + CountId(list[1..], id)
  }

  lemma {:induction false} RemoveByIdLength(list: seq<Conversation>, tmp: int)
    ensures |RemoveById(list, tmp)| == |list| - CountId(list, tmp)
  {
    if list != [] {
      RemoveByIdLength(list[1..], tmp);
    }
  }

  /** Rollback: removing the placeholder of a fresh temporary id gives back the list as it
      was before the send. */
  lemma RollbackRestores(list: seq<Conversation>, tmp: int, userMessage: string, timestamp: string)
    requires FreshId(list, tmp)
    ensures RemoveById(Prepend(Placeholder(tmp, userMessage, timestamp), list), tmp) == list
  {
    assert Prepend(Placeholder(tmp, userMessage, timestamp), list)[1..] == list;
  }

  /** Reconciliation: replacing the placeholder of a fresh temporary id puts the confirmed
      entry at the head and leaves the earlier entries as they were. */
  lemma ReconcileReplacesHead(list: seq<Conversation>, tmp: int, userMessage: string,
                              timestamp: string, confirmed: Conversation)
    requires FreshId(list, tmp)
    ensures ReplaceById(Prepend(Placeholder(tmp, userMessage, timestamp), list), tmp, confirmed)
            == [confirmed] + list
  {
    var r := ReplaceById(Prepend(Placeholder(tmp, userMessage, timestamp), list), tmp, confirmed);
    assert forall i :: 0 <= i < |list| ==> r[i + 1] == list[i];
  }

  /** A list in which some entry carries `id` has at least one such entry to count. */
  lemma {:induction false} CountIdPositive(list: seq<Conversation>, id: int)
    requires !FreshId(list, id)
    ensures CountId(list, id) >= 1
  {
    if list[0].id != id {
      assert list[1..][0..] == list[1..];
      var i :| 0 <= i < |list| && list[i].id == id;
      assert list[1..][i - 1] == list[i];
      CountIdPositive(list[1..], id);
    }
  }

  /** Without a fresh temporary id the rollback also removes the older entries that share
      it: the list then comes back shorter than before the send. */
  lemma RollbackStaleIdShrinks(list: seq<Conversation>, tmp: int, userMessage: string, timestamp: string)
    requires !FreshId(list, tmp)
    ensures |RemoveById(Prepend(Placeholder(tmp, userMessage, timestamp), list), tmp)| < |list|
  {
    var placed := Prepend(Placeholder(tmp, userMessage, timestamp), list);
    assert placed[1..] == list;
    RemoveByIdLength(list, tmp);
    CountIdPositive(list, tmp);
  }
}
