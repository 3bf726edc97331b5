/**
 * `LineClient`: the session state that the client's methods update in
 * place. Remote calls are parameters: each stands for what the server
 * returns to that call.
 */
module Client {
  import opened Wrappers
  import opened LineTypes
  import opened ConversationStore
  import Sync
  import Directory
  import Session

  class LineClient {
    /** The custom headers of the `/S4` (command) and `/P4` (long-poll) transports. */
    var s4Headers: map<string, string>
    var p4Headers: map<string, string>
    /** `_rev`: the last operation revision processed. */
    var rev: int
    /** `_conversations`, each conversation's buffer most recent first. */
    var conversations: Store
    /** `_mid_to_contacts`. */
    var contacts: Directory.Dir
    /** `_profile`: the user's own profile. */
    var profile: Contact

    /**
     * Every directory entry is filed under its own mid. This is what makes
     * `Myself` return a contact with the profile's mid, and what keeps the set
     * `Directory.Find` returns from losing a match.
     */
    ghost predicate Valid()
      reads this
    {
      Directory.WellKeyed(contacts)
    }

    /** Once the directory is built, the user's own profile is filed under its mid. */
    ghost predicate Connected()
      reads this
    {
      Valid() && profile.mid in contacts && contacts[profile.mid] == profile
    }

    /**
     * `myself`: the directory's entry under the user's own profile mid, or a
     * `KeyError` when the directory lacks it.
     */
    function Myself(): (r: Result<Contact, LineError>)
      reads this
      ensures r.Success? <==> profile.mid in contacts
      ensures r.Success? ==> r.value == contacts[profile.mid]
      ensures r.Failure? ==> r.error == NotFound(profile.mid)
      ensures Connected() ==> r == Success(profile)
      ensures Valid() && r.Success? ==> r.value.mid == profile.mid
    {
      Directory.Lookup(contacts, profile.mid)
    }

    /**
     * The transports as `_getclient` opens them, not yet logged in, with an
     * empty store. The source has no cursor, directory or profile at this point;
     * `rev`, `contacts` and `profile` are placeholders that `Open` overwrites.
     */
    constructor ()
      ensures Valid()
      ensures s4Headers == Session.Headers(Session.UNAUTHENTICATED_ACCESS)
      ensures p4Headers == Session.Headers(Session.UNAUTHENTICATED_ACCESS)
      ensures rev == 0 && conversations == map[] && contacts == map[]
    {
      s4Headers := Session.Headers(Session.UNAUTHENTICATED_ACCESS);
      p4Headers := Session.Headers(Session.UNAUTHENTICATED_ACCESS);
      rev := 0;
      conversations := map[];
      contacts := map[];
      profile := Contact("", "", "");
    }

    /**
     * `LineClient(email, password)`: log in, take the server's last operation
     * revision, build the contact directory and then fetch the profile once
     * more. `getProfile` is what the fetch inside `update_contacts` returns and
     * `getProfileAgain` what the later fetch returns; the directory files the
     * first, `profile` keeps the second. A rejected login yields no client.
     */
    static method Open(email: string, password: string, login: (string, string) -> LoginResult,
                       lastOpRevision: int, getAllContactIds: seq<Mid>,
                       getContacts: seq<Mid> -> seq<Contact>, getProfile: Contact, getProfileAgain: Contact)
      returns (r: Result<LineClient, LineError>)
      ensures r.Failure? <==> Session.LoginOutcome(login(email, password).resultType).Fail?
      ensures r.Failure? ==> r.error == Session.LoginOutcome(login(email, password).resultType).error
      ensures r.Success? ==> fresh(r.value) && r.value.Valid()
      ensures r.Success? && getProfileAgain == getProfile ==> r.value.Connected()
      ensures r.Success? && getProfileAgain.mid == getProfile.mid ==> (r.value.Connected() <==> getProfileAgain == getProfile)
      ensures r.Success? ==> r.value.s4Headers == Session.Headers(login(email, password).authToken)
      ensures r.Success? ==> r.value.p4Headers == Session.Headers(login(email, password).authToken)
      ensures r.Success? ==> r.value.rev == lastOpRevision && r.value.conversations == map[]
      ensures r.Success? ==> r.value.contacts == Directory.Rebuilt(getContacts(getAllContactIds), getProfile)
      ensures r.Success? ==> r.value.profile == getProfileAgain
    {
      var c := new LineClient();
      var loggedIn := c.Login(login(email, password));
      if loggedIn.Fail? {
        return Failure(loggedIn.error);
      }
      c.rev := lastOpRevision;
      c.UpdateContacts(getAllContactIds, getContacts, getProfile);
      c.profile := getProfileAgain;
      r := Success(c);
    }

    /**
     * `_login` after the remote call: classify the result and, on success only,
     * install the token on both transports.
     */
    method Login(result: LoginResult) returns (r: Outcome<LineError>)
      modifies this`s4Headers, this`p4Headers
      ensures r == Session.LoginOutcome(result.resultType)
      ensures old(Valid()) ==> Valid()
      ensures old(Connected()) ==> Connected()
      ensures r.Pass? ==> s4Headers == Session.Headers(result.authToken) && p4Headers == Session.Headers(result.authToken)
      ensures r.Fail? ==> s4Headers == old(s4Headers) && p4Headers == old(p4Headers)
    {
      r := Session.LoginOutcome(result.resultType);
      if r.Pass? {
        s4Headers := Session.Headers(result.authToken);
        p4Headers := Session.Headers(result.authToken);
      }
    }

    /**
     * `update_contacts`: the directory is replaced wholesale by the fetched
     * contacts with the user's own profile inserted last.
     */
    method UpdateContacts(getAllContactIds: seq<Mid>, getContacts: seq<Mid> -> seq<Contact>, getProfile: Contact)
      modifies this`contacts, this`profile
      ensures Connected()
      ensures contacts == Directory.Rebuilt(getContacts(getAllContactIds), getProfile)
      ensures profile == getProfile
      ensures profile.mid in contacts && contacts[profile.mid] == profile
    {
      var fetched := getContacts(getAllContactIds);
      contacts := Directory.ContactMap(fetched);
      profile := getProfile;
      contacts := contacts[profile.mid := profile];
    }

    /**
     * `update_conversation(group, initialHistory)`: get-or-create the
     * conversation, then replace its buffer with a fetch of that depth, or
     * empty it when the depth is not positive.
     */
    method UpdateConversation(target: Target, recent: History, initialHistory: int := DEFAULT_INITIAL_HISTORY)
      modifies this`conversations
      ensures conversations == Replaced(old(conversations), TargetMid(target), initialHistory, recent)
      ensures old(Valid()) ==> Valid()
      ensures old(Connected()) ==> Connected()
    {
      var group := TargetMid(target);
      if group !in conversations {
        conversations := conversations[group := []];
      }
      if initialHistory > 0 {
        conversations := conversations[group := recent(group, initialHistory)];
      } else {
        conversations := conversations[group := []];
      }
    }

    /**
     * `_add_to_conversation(group, message)`: returns the conversation and the
     * message, which an unseen conversation does not store.
     */
    method AddToConversation(group: Mid, message: Message, recent: History) returns (conv: Mid, m: Message)
      modifies this`conversations
      ensures conv == group && m == message
      ensures old(Valid()) ==> Valid()
      ensures old(Connected()) ==> Connected()
      ensures conversations == Added(old(conversations), group, message, recent)
    {
      if group !in conversations {
        conversations := conversations[group := recent(group, NEW_CONVERSATION_HISTORY)];
      } else {
        conversations := conversations[group := [message] + conversations[group]];
      }
      conv, m := group, message;
    }

    /** `_send_message(group, msg, seq)`: the message the server returns is added to the conversation. */
    method SendMessage(group: Mid, msg: OutgoingMessage, sendMessage: (int, OutgoingMessage) -> Message,
                       recent: History, sequence: int := 0)
      modifies this`conversations
      ensures conversations == Added(old(conversations), group, sendMessage(sequence, msg), recent)
      ensures old(Valid()) ==> Valid()
      ensures old(Connected()) ==> Connected()
    {
      var result := sendMessage(sequence, msg);
      var _, _ := AddToConversation(group, result, recent);
    }

    /** `LineConversation.send_message(text)`: a text message addressed to the conversation itself. */
    method SendText(conv: Mid, text: string, sendMessage: (int, OutgoingMessage) -> Message, recent: History)
      modifies this`conversations
      ensures conversations == Added(old(conversations), conv, sendMessage(0, OutgoingMessage(conv, text)), recent)
      ensures old(Valid()) ==> Valid()
      ensures old(Connected()) ==> Connected()
    {
      SendMessage(conv, OutgoingMessage(conv, text), sendMessage, recent);
    }

    /**
     * `long_poll`: fetch from the current revision and apply the batch, one
     * operation at a time, yielding one event per message operation.
     */
    method LongPoll(fetchOperations: (int, int) -> FetchResult, recent: History)
      returns (r: Result<seq<Event>, LineError>)
      modifies this`rev, this`conversations
      ensures Sync.PollResult(Sync.SyncState(rev, conversations), r)
        == Sync.Poll(Sync.SyncState(old(rev), old(conversations)), fetchOperations(old(rev), MAX_FETCH), recent)
      ensures old(Valid()) ==> Valid()
      ensures old(Connected()) ==> Connected()
    {
      var fetched := fetchOperations(rev, MAX_FETCH);
      match fetched
      case EndOfStream =>
        r := Success([]);
      case TalkFailure(code, _) =>
        if code == SESSION_SUPERSEDED {
          r := Failure(LoggedInElsewhere);
        } else {
          r := Success([]);
        }
      case Fetched(ops) =>
        ghost var start := Sync.SyncState(rev, conversations);
        var events: seq<Event> := [];
        var i := 0;
        while i < |ops|
          invariant 0 <= i <= |ops|
          invariant Sync.ProcessAll(start, ops[..i], recent) == Sync.Batch(Sync.SyncState(rev, conversations), events)
        {
          var op := ops[i];
          match op.kind {
            case EndOfOperation =>
            case SendMessage(msg) =>
              var conv, message := AddToConversation(msg.to, msg, recent);
              events := events + [Event(EVENT_NEW_MESSAGE, conv, message)];
            case ReceiveMessage(msg) =>
              var conv, message := AddToConversation(msg.frm, msg, recent);
              events := events + [Event(EVENT_NEW_MESSAGE, conv, message)];
            case ReceiveMessageReceipt =>
            case Unhandled(_) =>
          }
          rev := Sync.Max(op.revision, rev);
          assert ops[..i + 1][..i] == ops[..i];
          i := i + 1;
        }
        assert ops[..|ops|] == ops;
        r := Success(events);
    }
  }
}
