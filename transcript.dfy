/**
 * `get_chat_history_text` and the "Actions" section of the sidebar (Clear Chat and Download Chat
 * History). Both sidebars, `components/sidebar.py` and `frontend/components/sidebar.py`, carry
 * the same code for these.
 */
module Transcript {
  import opened Common
  import opened Chat
  import opened Session

  /** `[msg for msg in messages if msg["role"] == role]`. */
  function WithRole(ms: seq<Message>, role: Role): (r: seq<Message>)
    ensures |r| <= |ms|
    ensures forall i :: 0 <= i < |r| ==> r[i].role == role
    decreases |ms|
  {
    if ms == [] then []
    else WithRole(ms[..|ms| - 1], role) + (if ms[|ms| - 1].role == role then [ms[|ms| - 1]] else [])
  }

  /** The number of messages of `role` in `ms`. */
  function RoleCount(ms: seq<Message>, role: Role): nat
    decreases |ms|
  {
    if ms == [] then 0
    else RoleCount(ms[..|ms| - 1], role) + (if ms[|ms| - 1].role == role then 1 else 0)
  }

  /**
   * The filter keeps every message of `role`, in order: one entry per such message, and the
   * message at index `i` sits at the position given by the number of such messages before it.
   */
  lemma {:induction false} WithRoleExactly(ms: seq<Message>, role: Role)
    ensures |WithRole(ms, role)| == RoleCount(ms, role)
    ensures forall i :: 0 <= i < |ms| && ms[i].role == role ==>
              RoleCount(ms[..i], role) < |WithRole(ms, role)| &&
              WithRole(ms, role)[RoleCount(ms[..i], role)] == ms[i]
    decreases |ms|
  {
    if ms != [] {
      var n := |ms| - 1;
      var p := ms[..n];
      WithRoleExactly(p, role);
      assert WithRole(ms, role) == WithRole(p, role) + (if ms[n].role == role then [ms[n]] else []);
      forall i | 0 <= i < |ms| && ms[i].role == role
        ensures RoleCount(ms[..i], role) < |WithRole(ms, role)|
        ensures WithRole(ms, role)[RoleCount(ms[..i], role)] == ms[i]
      {
        if i < n {
          assert ms[..i] == p[..i];
          assert p[i] == ms[i];
          assert WithRole(ms, role)[RoleCount(p[..i], role)] == WithRole(p, role)[RoleCount(p[..i], role)];
        } else {
          assert ms[..i] == p;
        }
      }
    }
  }

  /** Filtering commutes with concatenation. */
  lemma {:induction false} WithRoleAppend(a: seq<Message>, b: seq<Message>, role: Role)
    ensures WithRole(a + b, role) == WithRole(a, role) + WithRole(b, role)
    decreases |b|
  {
    if b == [] {
      assert a + b == a;
    } else {
      assert (a + b)[..|a + b| - 1] == a + b[..|b| - 1];
      WithRoleAppend(a, b[..|b| - 1], role);
    }
  }

  /** Python's `zip(xs, ys)`: pairs up to the shorter length. */
  function Zip<X, Y>(xs: seq<X>, ys: seq<Y>): (r: seq<(X, Y)>)
    ensures |r| == Min(|xs|, |ys|)
    ensures forall i :: 0 <= i < |r| ==> r[i] == (xs[i], ys[i])
    decreases |xs|
  {
    if xs == [] || ys == [] then [] else [(xs[0], ys[0])] + Zip(xs[1..], ys[1..])
  }

  /** The (question, answer) pairs of the transcript: the greeting is not answered by anyone. */
  function QaPairs(ms: seq<Message>): seq<(Message, Message)> {
    Zip(WithRole(ms, User), DropFirst(WithRole(ms, Assistant)))
  }

  /**
   * There are min(#user, max(#assistant - 1, 0)) pairs, and the i-th user message is paired with
   * the (i+1)-th assistant message.
   */
  lemma QaPairsShape(ms: seq<Message>)
    ensures |QaPairs(ms)| == Min(|WithRole(ms, User)|, Max(|WithRole(ms, Assistant)| - 1, 0))
    ensures forall i :: 0 <= i < |QaPairs(ms)| ==>
              QaPairs(ms)[i] == (WithRole(ms, User)[i], WithRole(ms, Assistant)[i + 1])
  {
  }

  /** A message of another role is dropped by the filter wherever it stands. */
  lemma WithRoleSkips(a: seq<Message>, m: Message, b: seq<Message>, role: Role)
    requires m.role != role
    ensures WithRole(a + [m] + b, role) == WithRole(a + b, role)
  {
    WithRoleAppend(a + [m], b, role);
    WithRoleAppend(a, [m], role);
    WithRoleAppend(a, b, role);
    assert [m][..0] == [];
  }

  /** Messages with any other role leave the pairs unchanged, wherever they occur. */
  lemma QaPairsIgnoreOtherRoles(a: seq<Message>, m: Message, b: seq<Message>)
    requires !IsConversational(m)
    ensures QaPairs(a + [m] + b) == QaPairs(a + b)
  {
    WithRoleSkips(a, m, b, User);
    WithRoleSkips(a, m, b, Assistant);
  }

  /** The first line pair of the file; `date` stands for `datetime.now()` as `%Y-%m-%d %H:%M:%S`. */
  function Header(docName: string, date: string): string {
    "Chat History for: " + docName + "\nDate: " + date + "\n"
  }

  /** A rule of 80 box-drawing characters and a newline. */
  function Separator(): (s: string)
    ensures |s| == 81
    ensures forall i :: 0 <= i < 80 ==> s[i] == '\U{2500}'
    ensures s[80] == '\n'
  {
    seq(80, _ => '\U{2500}') + "\n"
  }

  function Block(pair: (Message, Message)): string {
    "Q: " + pair.0.content + "\n" + "A: " + pair.1.content + "\n\n"
  }

  /** The blocks of `pairs`, one after the other. */
  function Blocks(pairs: seq<(Message, Message)>): string
    decreases |pairs|
  {
    if pairs == [] then "" else Blocks(pairs[..|pairs| - 1]) + Block(pairs[|pairs| - 1])
  }

  /** Blocks appear in pair order: the blocks of a concatenation are the concatenated blocks. */
  lemma {:induction false} BlocksAppend(p: seq<(Message, Message)>, q: seq<(Message, Message)>)
    ensures Blocks(p + q) == Blocks(p) + Blocks(q)
    decreases |q|
  {
    if q == [] {
      assert p + q == p;
    } else {
      var q' := q[..|q| - 1];
      assert (p + q)[..|p + q| - 1] == p + q';
      assert (p + q)[|p + q| - 1] == q[|q| - 1];
      BlocksAppend(p, q');
      var last := Block(q[|q| - 1]);
      assert Blocks(p + q) == (Blocks(p) + Blocks(q')) + last;
      assert Blocks(q) == Blocks(q') + last;
      assert (Blocks(p) + Blocks(q')) + last == Blocks(p) + (Blocks(q') + last);
    }
  }

  /** Appending the block of pair `i` to the text of the first `i` pairs gives the first `i + 1`. */
  lemma BlocksExtend(start: string, pairs: seq<(Message, Message)>, i: nat)
    requires i < |pairs|
    ensures start + Blocks(pairs[..i]) + Block(pairs[i]) == start + Blocks(pairs[..i + 1])
  {
    assert pairs[..i + 1][..i] == pairs[..i];
  }

  /** The whole text of the download. */
  function TranscriptText(ms: seq<Message>, docName: string, date: string): string {
    Header(docName, date) + Separator() + Blocks(QaPairs(ms))
  }

  /** The text starts with the header, then the separator, then one block per pair, in order. */
  lemma TranscriptLayout(ms: seq<Message>, docName: string, date: string)
    ensures var t := TranscriptText(ms, docName, date);
            var h := Header(docName, date);
            && t[..|h|] == h
            && t[|h|..|h| + 81] == Separator()
            && t[|h| + 81..] == Blocks(QaPairs(ms))
  {
  }

  /** `get_chat_history_text`: the text is built by appending one block per pair. */
  method ChatHistoryText(messages: seq<Message>, docName: string, date: string) returns (chatText: string)
    ensures chatText == TranscriptText(messages, docName, date)
  {
    var header := Header(docName, date);
    var separator := Separator();
    chatText := header + separator;
    var userMessages := WithRole(messages, User);
    var assistantMessages := WithRole(messages, Assistant);
    var answers := DropFirst(assistantMessages);
    ghost var pairs := QaPairs(messages);
    var n := Min(|userMessages|, |answers|);
    var i := 0;
    while i < n
      invariant 0 <= i <= n == |pairs|
      invariant chatText == header + separator + Blocks(pairs[..i])
    {
      assert pairs[i] == (userMessages[i], answers[i]);
      ghost var before := chatText;
      chatText := chatText + "Q: " + userMessages[i].content + "\n";
      chatText := chatText + "A: " + answers[i].content + "\n\n";
      assert chatText == before + Block(pairs[i]);
      BlocksExtend(header + separator, pairs, i);
      i := i + 1;
    }
    assert pairs[..n] == pairs;
  }

  // ---------------------------------------------------------------------------
  // The "Actions" section
  // ---------------------------------------------------------------------------

  /** `len(st.session_state.get("messages", [])) > 1`. */
  predicate ChatStarted(vars: map<Key, Value>)
    requires WellTyped(vars)
  {
    |Get(vars, Messages, Msgs([])).ms| > 1
  }

  function ClearedMessage(docName: string): Message {
    Message(Assistant, "Chat cleared! Ask a new question about '" + docName + "'.", None)
  }

  /** The download button: file name and text. */
  datatype Download = Download(fileName: string, data: string)

  /** The Actions section either reran the script (Clear Chat) or shows the download button. */
  datatype ActionsResult = ClearedAndReran | Shown(download: Option<Download>)

  /**
   * Clear Chat (enabled only once the chat has started) replaces the messages with exactly one
   * assistant message and reruns; otherwise nothing changes and the download is offered while the
   * chat has started.
   */
  method ShowActions(session: SessionState, clearClicked: bool, date: string) returns (r: ActionsResult)
    requires WellTyped(session.vars)
    modifies session
    ensures WellTyped(session.vars)
    ensures var vars := old(session.vars);
            if clearClicked && ChatStarted(vars) then
              && r == ClearedAndReran
              && session.vars ==
                   vars[Messages := Msgs([ClearedMessage(NameText(Get(vars, UploadedFileName, Str("the current document"))))])]
            else
              && session.vars == vars
              && r == Shown(if ChatStarted(vars) then
                              Some(Download(
                                "chat_history_" + NameText(Get(vars, UploadedFileName, Str("session"))) + ".txt",
                                TranscriptText(Get(vars, Messages, Msgs([])).ms,
                                               NameText(Get(vars, UploadedFileName, Str("document"))), date)))
                            else None)
  {
    var isChatStarted := |Get(session.vars, Messages, Msgs([])).ms| > 1;
    if clearClicked && isChatStarted {
      var docName := Get(session.vars, UploadedFileName, Str("the current document"));
      session.Set(Messages, Msgs([ClearedMessage(NameText(docName))]));
      return ClearedAndReran;
    }
    if isChatStarted {
      var data := ChatHistoryText(Get(session.vars, Messages, Msgs([])).ms,
                                  NameText(Get(session.vars, UploadedFileName, Str("document"))), date);
      var fileName := "chat_history_" + NameText(Get(session.vars, UploadedFileName, Str("session"))) + ".txt";
      r := Shown(Some(Download(fileName, data)));
    } else {
      r := Shown(None);
    }
  }
}
