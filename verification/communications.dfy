/**
  Team chat (src/pages/admin/CommunicationsPage.tsx): one message thread per
  team member other than the signed-in user, opening a thread and sending a
  message into it.
*/
module Communications {
  import opened Domain
  import opened Text

  datatype ChatUser = ChatUser(id: string, name: string, avatar: string, online: bool)
  datatype DeliveryStatus = Sent | Delivered | Read

  /** A chat message; the timestamp is the clock reading passed in. */
  datatype ChatMessage = ChatMessage(
    id: string, sender: ChatUser, content: string, timestamp: string, status: DeliveryStatus)

  type Threads = map<string, seq<ChatMessage>>

  /** The team list: the signed-in user first, then the two colleagues. */
  const TeamUsers: seq<ChatUser> := [
    ChatUser("1", "You", [], true),
    ChatUser("2", "John Doe", [], true),
    ChatUser("3", "Jane Smith", [], false)
  ]

  /** The ids of every user after the first, the ones shown in the sidebar. */
  function Colleagues(users: seq<ChatUser>): set<string> {
    set j | 1 <= j < |users| :: users[j].id
  }

  /** On the team list the sidebar shows the two colleagues, never the
      signed-in user. */
  lemma TeamColleagues()
    ensures Colleagues(TeamUsers) == {"2", "3"}
    ensures TeamUsers[0].id !in Colleagues(TeamUsers)
  {
    assert TeamUsers[1].id == "2" && TeamUsers[2].id == "3";
  }

  /** The threads set up when the page mounts: an empty thread for every user
      after the first, and nothing else. */
  method InitialThreads(users: seq<ChatUser>) returns (threads: Threads)
    ensures threads.Keys == Colleagues(users)
    ensures forall id :: id in threads ==> threads[id] == []
  {
    threads := map[];
    var i := 1;
    while i < |users|
      invariant 1 <= i <= |users| || (users == [] && i == 1)
      invariant threads.Keys == set j | 1 <= j < i && j < |users| :: users[j].id
      invariant forall id :: id in threads ==> threads[id] == []
    {
      threads := threads[users[i].id := []];
      i := i + 1;
    }
  }

  // ---------------------------------------------------------------------------
  // Sending

  /** The send handler acts only on text that is not blank after trimming and
      while a thread is open (an empty id counts as none). */
  predicate CanSend(input: string, active: Option<string>) {
    Trim(input) != [] && active.Some? && active.value != []
  }

  /** Text made only of white space is never sent. */
  lemma BlankTextNeverSent(input: string, active: Option<string>)
    requires AllSpace(input)
    ensures !CanSend(input, active)
  {
    TrimEmptyIffAllSpace(input);
  }

  /** Text with a visible character is sent whenever a thread is open. */
  lemma VisibleTextSent(input: string, thread: string, k: int)
    requires 0 <= k < |input| && !IsJsSpace(input[k]) && thread != []
    ensures CanSend(input, Some(thread))
  {
    TrimEmptyIffAllSpace(input);
  }

  /** The message the signed-in user sends: id from the clock in
      milliseconds, sender `me`, the text as typed, status sent. */
  function OutgoingMessage(me: ChatUser, input: string, millis: nat, now: string): (m: ChatMessage)
    ensures m.sender == me && m.content == input && m.status == Sent
  {
    ChatMessage(DecimalString(millis), me, input, now, Sent)
  }

  /** The threads after adding `m` at the end of `thread` (a missing thread
      starts empty); every other thread is unchanged. */
  function AppendMessage(threads: Threads, thread: string, m: ChatMessage): (r: Threads)
    ensures r.Keys == threads.Keys + {thread}
    ensures r[thread] == (if thread in threads then threads[thread] else []) + [m]
    ensures forall id :: id in threads && id != thread ==> r[id] == threads[id]
  {
    threads[thread := (if thread in threads then threads[thread] else []) + [m]]
  }

  /** Appending adds exactly one message to the thread and the last one is
      the message sent. */
  lemma AppendGrowsThreadByOne(threads: Threads, thread: string, m: ChatMessage)
    requires thread in threads
    ensures |AppendMessage(threads, thread, m)[thread]| == |threads[thread]| + 1
    ensures AppendMessage(threads, thread, m)[thread][|threads[thread]|] == m
    ensures AppendMessage(threads, thread, m)[thread][..|threads[thread]|] == threads[thread]
  {
  }

  // ---------------------------------------------------------------------------
  // Page state

  /** The chat page over the team list: the threads, the text being typed and
      the open thread. */
  class CommunicationsPage {
    var threads: Threads
    var input: string
    var activeThread: Option<string>

    /** The page once mounted: an empty thread per colleague, nothing typed,
        no thread open. */
    constructor()
      ensures threads.Keys == Colleagues(TeamUsers)
      ensures forall id :: id in threads ==> threads[id] == []
      ensures input == [] && activeThread.None?
    {
      var initial := InitialThreads(TeamUsers);
      threads := initial;
      input := [];
      activeThread := None;
    }

    /** Typing replaces the input text. */
    method Type(text: string)
      modifies this
      ensures input == text && threads == old(threads) && activeThread == old(activeThread)
    {
      input := text;
    }

    /** Clicking a colleague opens their thread. */
    method Open(id: string)
      modifies this
      ensures activeThread == Some(id) && threads == old(threads) && input == old(input)
    {
      activeThread := Some(id);
    }

    /** "Back to all" closes the open thread. */
    method Back()
      modifies this
      ensures activeThread.None? && threads == old(threads) && input == old(input)
    {
      activeThread := None;
    }

    /** Sends the typed text at clock reading `millis`/`now`. Without visible
        text or an open thread nothing changes; otherwise the message from
        the signed-in user goes at the end of the open thread and the input
        is cleared. */
    method Send(millis: nat, now: string)
      modifies this
      ensures activeThread == old(activeThread)
      ensures !CanSend(old(input), old(activeThread)) ==> threads == old(threads) && input == old(input)
      ensures CanSend(old(input), old(activeThread)) ==>
        threads == AppendMessage(old(threads), old(activeThread).value,
                                 OutgoingMessage(TeamUsers[0], old(input), millis, now))
        && input == []
    {
      if !CanSend(input, activeThread) {
        return;
      }
      threads := AppendMessage(threads, activeThread.value, OutgoingMessage(TeamUsers[0], input, millis, now));
      input := [];
    }
  }
}
