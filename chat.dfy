/**
 * Chat messages as the front ends keep them in `st.session_state.messages` and send them to
 * the back end, and their conversion to LangChain history turns (`format_chat_history`).
 */
module Chat {
  import opened Common

  /**
   * The `role` of a message dict; roles other than "user" and "assistant" can arrive over HTTP.
   * `OtherRole` stands only for names other than those two (see `RoleOf`).
   */
  datatype Role = User | Assistant | OtherRole(name: string)

  /** The roles a dict can have: `OtherRole("user")` and `OtherRole("assistant")` never occur. */
  predicate WellFormedRole(r: Role) {
    r.OtherRole? ==> r.name != "user" && r.name != "assistant"
  }

  /**
   * The role of a dict whose "role" entry is `name`, as `format_chat_history` compares it:
   * `User` exactly for "user", `Assistant` exactly for "assistant", the name itself otherwise.
   */
  function RoleOf(name: string): (r: Role)
    ensures WellFormedRole(r)
    ensures r == User <==> name == "user"
    ensures r == Assistant <==> name == "assistant"
    ensures r.OtherRole? ==> r.name == name
  {
    if name == "user" then User else if name == "assistant" then Assistant else OtherRole(name)
  }

  /** A message dict: role, content and, for answers, the source documents shown under them. */
  datatype Message = Message(role: Role, content: string, sources: Option<seq<Doc>>)

  /** LangChain's `HumanMessage` and `AIMessage`. */
  datatype Turn = Human(content: string) | Ai(content: string)

  predicate IsConversational(m: Message) {
    m.role == User || m.role == Assistant
  }

  /** The history turn a user or assistant message becomes. */
  function ToTurn(m: Message): Turn
    requires IsConversational(m)
  {
    if m.role == User then Human(m.content) else Ai(m.content)
  }

  /** What one loop iteration of `format_chat_history` appends for message `m`. */
  function TurnsOf(m: Message): seq<Turn> {
    match m.role
    case User => [Human(m.content)]
    case Assistant => [Ai(m.content)]
    case OtherRole(_) => []
  }

  /** The turns `format_chat_history` builds from `ms`, defined one message at a time from the end. */
  function ChatTurns(ms: seq<Message>): seq<Turn>
    decreases |ms|
  {
    if ms == [] then [] else ChatTurns(ms[..|ms| - 1]) + TurnsOf(ms[|ms| - 1])
  }

  /** The number of user and assistant messages in `ms`. */
  function ConversationalCount(ms: seq<Message>): nat
    decreases |ms|
  {
    if ms == [] then 0
    else ConversationalCount(ms[..|ms| - 1]) + (if IsConversational(ms[|ms| - 1]) then 1 else 0)
  }

  /**
   * `ChatTurns` keeps exactly the user and assistant messages, in their order and with their
   * content: there is one turn per such message, and the message at index `i` becomes the turn at
   * the position given by the number of user and assistant messages before it. Every other role
   * contributes nothing.
   */
  lemma {:induction false} ChatTurnsExactly(ms: seq<Message>)
    ensures |ChatTurns(ms)| == ConversationalCount(ms)
    ensures forall i :: 0 <= i < |ms| && IsConversational(ms[i]) ==>
              ConversationalCount(ms[..i]) < |ChatTurns(ms)| &&
              ChatTurns(ms)[ConversationalCount(ms[..i])] == ToTurn(ms[i])
    decreases |ms|
  {
    if ms != [] {
      var n := |ms| - 1;
      var p := ms[..n];
      ChatTurnsExactly(p);
      var last := TurnsOf(ms[n]);
      assert ChatTurns(ms) == ChatTurns(p) + last;
      assert IsConversational(ms[n]) ==> last == [ToTurn(ms[n])];
      forall i | 0 <= i < |ms| && IsConversational(ms[i])
        ensures ConversationalCount(ms[..i]) < |ChatTurns(ms)|
        ensures ChatTurns(ms)[ConversationalCount(ms[..i])] == ToTurn(ms[i])
      {
        if i < n {
          assert ms[..i] == p[..i];
          assert p[i] == ms[i];
          assert ChatTurns(ms)[ConversationalCount(p[..i])] == ChatTurns(p)[ConversationalCount(p[..i])];
        } else {
          assert ms[..i] == p;
        }
      }
    }
  }

  /** Appending messages appends their turns: the conversion is a homomorphism on sequences. */
  lemma {:induction false} ChatTurnsAppend(a: seq<Message>, b: seq<Message>)
    ensures ChatTurns(a + b) == ChatTurns(a) + ChatTurns(b)
    decreases |b|
  {
    if b == [] {
      assert a + b == a;
    } else {
      var n := |b| - 1;
      assert (a + b)[..|a + b| - 1] == a + b[..n];
      ChatTurnsAppend(a, b[..n]);
    }
  }

  /** A history made only of messages with other roles converts to no turns at all. */
  lemma {:induction false} ChatTurnsDropsOtherRoles(ms: seq<Message>)
    requires forall i :: 0 <= i < |ms| ==> !IsConversational(ms[i])
    ensures ChatTurns(ms) == []
    decreases |ms|
  {
    if ms != [] {
      ChatTurnsDropsOtherRoles(ms[..|ms| - 1]);
    }
  }
}
