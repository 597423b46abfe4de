/** The chat store of the single-page application: the conversation and two flags, changed
    only by the store's actions. */
module ChatStore {
  datatype Role = User | Assistant

  /** A message; the identifier and the time stamp are supplied by the caller of the action
      (they come from `crypto.randomUUID` and the clock). */
  datatype ChatMessage = ChatMessage(id: string, content: string, role: Role, timestamp: int)

  datatype ChatState = ChatState(messages: seq<ChatMessage>, isLoading: bool, isConnected: bool)

  const Initial := ChatState([], false, false)

  /** The store's actions. */
  datatype Action =
    | AddMessage(content: string, role: Role, id: string, timestamp: int)
    | SetLoading(loading: bool)
    | SetConnected(connected: bool)
    | ClearMessages

  /** One action: `addMessage` appends, the setters replace their own flag, `clearMessages`
      empties the list. */
  function Apply(s: ChatState, a: Action): (r: ChatState)
    ensures a.AddMessage? ==> |r.messages| == |s.messages| + 1 && r.messages[..|s.messages|] == s.messages
    ensures !a.SetLoading? ==> r.isLoading == s.isLoading
    ensures !a.SetConnected? ==> r.isConnected == s.isConnected
    ensures a.SetLoading? || a.SetConnected? ==> r.messages == s.messages
  {
    match a
    case AddMessage(content, role, id, timestamp) =>
      s.(messages := s.messages + [ChatMessage(id, content, role, timestamp)])
    case SetLoading(loading) => s.(isLoading := loading)
    case SetConnected(connected) => s.(isConnected := connected)
    case ClearMessages => s.(messages := [])
  }

  /** A run of actions, oldest first. */
  function Run(s: ChatState, acts: seq<Action>): (r: ChatState)
    decreases |acts|
  {
    if acts == [] then s else Apply(Run(s, acts[..|acts| - 1]), acts[|acts| - 1])
  }

  /** Whether the run clears the conversation at some point. */
  predicate Clears(acts: seq<Action>) {
    exists k :: 0 <= k < |acts| && acts[k] == ClearMessages
  }

  /** The messages added after the last clear, in order. */
  function AddedSinceClear(acts: seq<Action>): seq<ChatMessage>
    decreases |acts|
  {
    if acts == [] then []
    else
      var a := acts[|acts| - 1];
      match a
      case ClearMessages => []
      case AddMessage(content, role, id, timestamp) =>
        AddedSinceClear(acts[..|acts| - 1]) + [ChatMessage(id, content, role, timestamp)]
      case _ => AddedSinceClear(acts[..|acts| - 1])
  }

  /** After any run the conversation is the messages added since the last clear, after the
      earlier conversation when nothing was cleared. */
  lemma {:induction false} RunMessages(s: ChatState, acts: seq<Action>)
    ensures Run(s, acts).messages == (if Clears(acts) then [] else s.messages) + AddedSinceClear(acts)
    decreases |acts|
  {
    if acts != [] {
      var init := acts[..|acts| - 1];
      var a := acts[|acts| - 1];
      RunMessages(s, init);
      assert Clears(acts) <==> Clears(init) || a == ClearMessages by {
        if Clears(init) {
          var k :| 0 <= k < |init| && init[k] == ClearMessages;
          assert acts[k] == ClearMessages;
        }
        if Clears(acts) && a != ClearMessages {
          var k :| 0 <= k < |acts| && acts[k] == ClearMessages;
          assert init[k] == ClearMessages;
        }
      }
    }
  }

  /** From the initial state the conversation is exactly the messages added since the last
      clear. */
  lemma FromInitial(acts: seq<Action>)
    ensures Run(Initial, acts).messages == AddedSinceClear(acts)
  {
    RunMessages(Initial, acts);
  }

  /** The two flag setters commute with each other and with adding a message. */
  lemma SettersCommute(s: ChatState, l: bool, c: bool, m: Action)
    requires m.AddMessage?
    ensures Apply(Apply(s, SetLoading(l)), SetConnected(c)) == Apply(Apply(s, SetConnected(c)), SetLoading(l))
    ensures Apply(Apply(s, SetLoading(l)), m) == Apply(Apply(s, m), SetLoading(l))
  {
  }

  class ChatStoreObject {
    var messages: seq<ChatMessage>
    var isLoading: bool
    var isConnected: bool

    function State(): ChatState
      reads this
    {
      ChatState(messages, isLoading, isConnected)
    }

    constructor()
      ensures State() == Initial
    {
      messages, isLoading, isConnected := [], false, false;
    }

    /** `addMessage`, with the identifier and the time stamp as parameters. */
    method AddMessage(content: string, role: Role, id: string, timestamp: int)
      modifies this
      ensures State() == Apply(old(State()), Action.AddMessage(content, role, id, timestamp))
      ensures messages == old(messages) + [ChatMessage(id, content, role, timestamp)]
    {
      messages := messages + [ChatMessage(id, content, role, timestamp)];
    }

    method SetLoading(loading: bool)
      modifies this
      ensures State() == old(State()).(isLoading := loading)
    {
      isLoading := loading;
    }

    method SetConnected(connected: bool)
      modifies this
      ensures State() == old(State()).(isConnected := connected)
    {
      isConnected := connected;
    }

    method ClearMessages()
      modifies this
      ensures State() == old(State()).(messages := [])
    {
      messages := [];
    }
  }
}
