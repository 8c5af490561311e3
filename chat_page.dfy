/**
 * The state logic of the chat page (Frontend/src/pages/ChatPage.jsx): the client's
 * conversation list, the selected conversation and the two loading flags, as updated by
 * the conversation search and by the loading of the conversation list, plus the
 * online flag each listed conversation is shown with.
 *
 * The server's answers are parameters: the profile lookup's reply, the conversation
 * list's reply, and the `Date.now()` reading that becomes a provisional conversation's id.
 */
module ChatPage {
  import opened Wrappers

  type UserId = string

  /** A stored conversation's id, or the `Date.now()` reading a provisional one is keyed by. */
  datatype ConvId = ObjectId(hex: string) | Timestamp(ms: int)

  datatype Participant = Participant(id: UserId, username: string, profilePic: string)

  datatype LastMessage = LastMessage(text: string, sender: UserId)

  /** A listed conversation; `mock` marks the provisional one a search adds. */
  datatype Conversation = Conversation(id: ConvId, participants: seq<Participant>, lastMessage: LastMessage, mock: bool)

  /** The selected conversation, as the page stores it. */
  datatype Selection = Selection(id: ConvId, userId: UserId, username: string, userProfilePic: string)

  /** What the profile request gives back: a user, an `error` payload (taken to be non-empty), or a thrown error. */
  datatype SearchReply =
    | UserFound(id: UserId, username: string, profilePic: string)
    | ErrorPayload(error: string)
    | Thrown(message: string)

  /** What the conversation-list request gives back; an `error` payload is taken to be non-empty. */
  datatype LoadReply =
    | Conversations(list: seq<Conversation>)
    | LoadErrorPayload(error: string)
    | LoadThrown(message: string)

  /** What one search does: report an error, select a listed conversation, or append a provisional one. */
  datatype Effect = Report(message: string) | Select(selection: Selection) | Append(conversation: Conversation)

  /** The outcome of `conversations.find(c => c.participants[0]._id === id)`. */
  datatype Lookup = Found(index: nat) | Missing | Throws

  /** The error a browser raises when `participants[0]` is undefined and `._id` is read from it. */
  const TypeErrorMessage: string := "Cannot read properties of undefined (reading '_id')"

  /** `c`'s first participant exists and is not `id`. */
  predicate Misses(c: Conversation, id: UserId)
  {
    |c.participants| > 0 && c.participants[0].id != id
  }

  predicate Hits(c: Conversation, id: UserId)
  {
    |c.participants| > 0 && c.participants[0].id == id
  }

  /**
   * `find` walks the list in order: it stops at the first conversation whose first
   * participant is `id`, and throws at the first one that has no participant.
   */
  function FindByCounterpart(convs: seq<Conversation>, id: UserId): (r: Lookup)
    ensures r.Found? ==> r.index < |convs| && Hits(convs[r.index], id)
    ensures r.Found? ==> forall j :: 0 <= j < r.index ==> Misses(convs[j], id)
    ensures r.Missing? <==> forall j :: 0 <= j < |convs| ==> Misses(convs[j], id)
    ensures r.Throws? ==>
      exists k :: 0 <= k < |convs| && |convs[k].participants| == 0 &&
        forall j :: 0 <= j < k ==> Misses(convs[j], id)
  {
    if |convs| == 0 then Missing
    else if |convs[0].participants| == 0 then Throws
    else if convs[0].participants[0].id == id then Found(0)
    else match FindByCounterpart(convs[1..], id)
      case Found(i) => Found(i + 1)
      case Missing => Missing
      case Throws => Throws
  }

  /** The provisional conversation a search for `u` appends. */
  function MockConversation(u: SearchReply, now: int): Conversation
    requires u.UserFound?
  {
    Conversation(Timestamp(now), [Participant(u.id, u.username, u.profilePic)], LastMessage("", ""), true)
  }

  /**
   * handleConversationSearch's decision. An error payload or a thrown error is reported;
   * so is a search for oneself; a user who is the first participant of a listed
   * conversation selects the first such conversation; any other user gets a provisional
   * conversation keyed by `now`.
   */
  function SearchEffect(convs: seq<Conversation>, me: UserId, reply: SearchReply, now: int): (e: Effect)
    ensures reply.ErrorPayload? ==> e == Report(reply.error)
    ensures reply.Thrown? ==> e == Report(reply.message)
    ensures reply.UserFound? && reply.id == me ==> e == Report("You cannot message yourself")
    ensures e.Select? <==>
      && reply.UserFound? && reply.id != me
      && exists k :: 0 <= k < |convs| && Hits(convs[k], reply.id) &&
           forall j :: 0 <= j < k ==> Misses(convs[j], reply.id)
    ensures e.Select? ==>
      exists k :: 0 <= k < |convs| && Hits(convs[k], reply.id) &&
        (forall j :: 0 <= j < k ==> Misses(convs[j], reply.id)) &&
        e.selection == Selection(convs[k].id, reply.id, reply.username, reply.profilePic)
    ensures reply.UserFound? && reply.id != me && FindByCounterpart(convs, reply.id).Throws? ==>
      e == Report(TypeErrorMessage)
    ensures e.Append? <==>
      reply.UserFound? && reply.id != me && forall j :: 0 <= j < |convs| ==> Misses(convs[j], reply.id)
    ensures e.Append? ==>
      && e.conversation.mock && e.conversation.id == Timestamp(now)
      && e.conversation.lastMessage == LastMessage("", "")
      && e.conversation.participants == [Participant(reply.id, reply.username, reply.profilePic)]
  {
    match reply
    case ErrorPayload(error) => Report(error)
    case Thrown(message) => Report(message)
    case UserFound(id, username, profilePic) =>
      if id == me then Report("You cannot message yourself")
      else match FindByCounterpart(convs, id)
        case Found(i) => Select(Selection(convs[i].id, id, username, profilePic))
        case Missing => Append(MockConversation(reply, now))
        case Throws => Report(TypeErrorMessage)
  }

  /** The list after a search's effect. */
  function AfterSearch(convs: seq<Conversation>, e: Effect): seq<Conversation>
  {
    if e.Append? then convs + [e.conversation] else convs
  }

  /** No two listed conversations have the same first participant. */
  ghost predicate CounterpartsDistinct(convs: seq<Conversation>)
  {
    forall i, j :: 0 <= i < j < |convs| && |convs[i].participants| > 0 && |convs[j].participants| > 0 ==>
      convs[i].participants[0].id != convs[j].participants[0].id
  }

  /**
   * The online flag of line 167 for every listed conversation: a conversation is shown
   * online exactly when `onlineUsers` holds its first participant. Rendering reads
   * `participants[0]`, so every conversation must have one.
   */
  function OnlineFlags(onlineUsers: seq<UserId>, convs: seq<Conversation>): (flags: seq<bool>)
    requires forall i :: 0 <= i < |convs| ==> |convs[i].participants| > 0
    ensures |flags| == |convs|
    ensures forall i :: 0 <= i < |convs| ==> (flags[i] <==> convs[i].participants[0].id in onlineUsers)
  {
    if |convs| == 0 then []
    else [convs[0].participants[0].id in onlineUsers] + OnlineFlags(onlineUsers, convs[1..])
  }

  /** The page's state: the conversation list, the selection and the two flags. */
  class Page {
    const me: UserId
    var conversations: seq<Conversation>
    var selected: Selection
    var searchingUser: bool
    var loadingConversations: bool

    /** A freshly mounted page: nothing searched yet, the list still loading. */
    constructor (me: UserId, conversations0: seq<Conversation>, selected0: Selection)
      ensures this.me == me && conversations == conversations0 && selected == selected0
      ensures !searchingUser && loadingConversations
    {
      this.me := me;
      conversations := conversations0;
      selected := selected0;
      searchingUser := false;
      loadingConversations := true;
    }

    /**
     * The `getConversations` effect: a list replaces the one held, an error payload or a
     * thrown error leaves it, and the loading flag is cleared in every case.
     */
    method GetConversations(reply: LoadReply) returns (error: Option<string>)
      modifies this
      ensures !loadingConversations
      ensures conversations == (if reply.Conversations? then reply.list else old(conversations))
      ensures error == (match reply
                        case Conversations(_) => None
                        case LoadErrorPayload(e) => Some(e)
                        case LoadThrown(m) => Some(m))
      ensures selected == old(selected) && searchingUser == old(searchingUser)
    {
      error := None;
      match reply {
        case LoadErrorPayload(e) =>
          error := Some(e);
        case LoadThrown(m) =>
          error := Some(m);
        case Conversations(list) =>
          conversations := list;
      }
      loadingConversations := false;
    }

    /**
     * handleConversationSearch: sets `searchingUser`, then reports, selects or appends,
     * and clears `searchingUser` on every path.
     */
    method HandleConversationSearch(reply: SearchReply, now: int) returns (e: Effect)
      modifies this
      ensures e == SearchEffect(old(conversations), me, reply, now)
      ensures conversations == AfterSearch(old(conversations), e)
      ensures selected == (if e.Select? then e.selection else old(selected))
      ensures !searchingUser && loadingConversations == old(loadingConversations)
    {
      searchingUser := true;
      match reply {
        case ErrorPayload(error) =>
          e := Report(error);
        case Thrown(message) =>
          e := Report(message);
        case UserFound(id, username, profilePic) =>
          if id == me {
            e := Report("You cannot message yourself");
          } else {
            var found := FindByCounterpart(conversations, id);
            match found {
              case Found(i) =>
                e := Select(Selection(conversations[i].id, id, username, profilePic));
                selected := e.selection;
              case Missing =>
                e := Append(MockConversation(reply, now));
                conversations := conversations + [e.conversation];
              case Throws =>
                e := Report(TypeErrorMessage);
            }
          }
      }
      searchingUser := false;
    }
  }

  /** `find` answers with the first hit when every conversation before it has a participant. */
  lemma FindFirstHit(convs: seq<Conversation>, id: UserId, k: nat)
    requires k < |convs| && Hits(convs[k], id)
    requires forall j :: 0 <= j < k ==> Misses(convs[j], id)
    ensures FindByCounterpart(convs, id) == Found(k)
  {
  }

  /**
   * Searching the same user twice never appends a second provisional conversation:
   * after the first search appends one, the second finds it.
   */
  lemma SearchTwiceAppendsAtMostOnce(convs: seq<Conversation>, me: UserId, reply: SearchReply, now1: int, now2: int)
    ensures var e1 := SearchEffect(convs, me, reply, now1);
      var e2 := SearchEffect(AfterSearch(convs, e1), me, reply, now2);
      !e2.Append? && |AfterSearch(AfterSearch(convs, e1), e2)| <= |convs| + 1
  {
    var e1 := SearchEffect(convs, me, reply, now1);
    if e1.Append? {
      var s := convs + [e1.conversation];
      FindFirstHit(s, reply.id, |convs|);
    }
  }

  /** A search keeps the list free of two conversations with the same first participant. */
  lemma SearchKeepsCounterpartsDistinct(convs: seq<Conversation>, me: UserId, reply: SearchReply, now: int)
    requires CounterpartsDistinct(convs)
    ensures CounterpartsDistinct(AfterSearch(convs, SearchEffect(convs, me, reply, now)))
  {
  }

  /** A provisional conversation is shown online exactly when the searched user is online. */
  lemma MockOnlineIffUserOnline(onlineUsers: seq<UserId>, convs: seq<Conversation>, reply: SearchReply, now: int)
    requires reply.UserFound?
    requires forall i :: 0 <= i < |convs| ==> |convs[i].participants| > 0
    ensures var s := convs + [MockConversation(reply, now)];
      var flags := OnlineFlags(onlineUsers, s);
      flags[..|convs|] == OnlineFlags(onlineUsers, convs) && (flags[|convs|] <==> reply.id in onlineUsers)
  {
  }
}
