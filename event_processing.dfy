/**
 * The earlier event processor: an event's type string (such as
 * "proposal/created") is split on "/" into a set of tokens, and every user one
 * of whose keywords equals one of those tokens exactly is sent a fixed-format
 * notification. A store listener hands it only the newly added events.
 */
module EventProcessing {
  import Text

  /** The stored event document: proposal id, event type, space and expiry
      (the expiry as the text it is rendered to in the message). */
  datatype EventData = EventData(id: string, event: string, space: string, expire: string)

  /** A subscriptions document: the user id and the stored keyword list. */
  datatype KeywordSubscription = KeywordSubscription(userId: string, keywords: seq<string>)

  /** What is handed to the notification sender. */
  datatype Notification = Notification(userId: string, message: string)

  /** The token set of an event type: its "/"-separated pieces, without repetition. */
  function EventTokens(kind: string): set<string> {
    set t | t in Text.Split(kind, '/')
  }

  /** `any(keyword in tokens for keyword in keywords)` */
  predicate Notified(keywords: seq<string>, tokens: set<string>) {
    exists k | k in keywords :: k in tokens
  }

  /** The header line "An event matching your subscription has occurred:".
      It is written as three short literals so that the proof that it holds
      no line feed (`HeaderSingleLine`) stays cheap for the verifier; one
      literal of this length makes that proof slow. */
  const Header := "An event matching " + "your subscription " + "has occurred:"

  /** The lines of the notification text: the header, then each field after its label. */
  function MessageLines(eventId: string, e: EventData): seq<string> {
    [Header,
     "Event ID: " + eventId,
     "Event Type: " + e.event,
     "Space: " + e.space,
     "Proposal ID: " + e.id,
     "Expire: " + e.expire]
  }

  /** The notification text: its lines separated by line feeds, without a final one. */
  function Message(eventId: string, e: EventData): string {
    Text.Join(MessageLines(eventId, e), "\n")
  }

  /** The notifications for one event, in the order the subscriptions are streamed. */
  function Notifications(eventId: string, e: EventData, subs: seq<KeywordSubscription>): seq<Notification>
    decreases |subs|
  {
    if |subs| == 0 then []
    else
      var last := subs[|subs| - 1];
      Notifications(eventId, e, subs[..|subs| - 1]) +
      (if Notified(last.keywords, EventTokens(e.event)) then [Notification(last.userId, Message(eventId, e))] else [])
  }

  /** The loop over the subscriptions; each match is sent at once. */
  method ProcessEvent(eventId: string, e: EventData, subs: seq<KeywordSubscription>) returns (sent: seq<Notification>)
    ensures sent == Notifications(eventId, e, subs)
  {
    var tokens := EventTokens(e.event);
    sent := [];
    for i := 0 to |subs|
      invariant sent == Notifications(eventId, e, subs[..i])
    {
      assert subs[..i + 1][..i] == subs[..i];
      if Notified(subs[i].keywords, tokens) {
        var message := Message(eventId, e);
        sent := sent + [Notification(subs[i].userId, message)];
      }
    }
    assert subs[..|subs|] == subs;
  }

  // ---------------------------------------------------------------------------
  // The listener's filter
  // ---------------------------------------------------------------------------

  datatype ChangeKind = Added | Modified | Removed

  /** One entry of a snapshot's change list: its kind and the changed document. */
  datatype Change = Change(kind: ChangeKind, docId: string, data: EventData)

  /** All notifications caused by one snapshot callback: only added documents are processed. */
  function SnapshotNotifications(changes: seq<Change>, subs: seq<KeywordSubscription>): seq<Notification>
    decreases |changes|
  {
    if |changes| == 0 then []
    else
      var last := changes[|changes| - 1];
      SnapshotNotifications(changes[..|changes| - 1], subs) +
      (if last.kind == Added then Notifications(last.docId, last.data, subs) else [])
  }

  method OnSnapshot(changes: seq<Change>, subs: seq<KeywordSubscription>) returns (sent: seq<Notification>)
    ensures sent == SnapshotNotifications(changes, subs)
  {
    sent := [];
    for i := 0 to |changes|
      invariant sent == SnapshotNotifications(changes[..i], subs)
    {
      assert changes[..i + 1][..i] == changes[..i];
      if changes[i].kind == Added {
        var more := ProcessEvent(changes[i].docId, changes[i].data, subs);
        sent := sent + more;
      }
    }
    assert changes[..|changes|] == changes;
  }

  function AddedChanges(changes: seq<Change>): seq<Change>
    decreases |changes|
  {
    if |changes| == 0 then []
    else
      var last := changes[|changes| - 1];
      AddedChanges(changes[..|changes| - 1]) + (if last.kind == Added then [last] else [])
  }

  /** Modified and removed documents cause nothing: a snapshot notifies exactly
      as its added documents alone would. */
  lemma {:induction false} SnapshotOnlyAdded(changes: seq<Change>, subs: seq<KeywordSubscription>)
    ensures SnapshotNotifications(changes, subs) == SnapshotNotifications(AddedChanges(changes), subs)
    decreases |changes|
  {
    if |changes| > 0 {
      var init := changes[..|changes| - 1];
      var last := changes[|changes| - 1];
      SnapshotOnlyAdded(init, subs);
      var earlier := AddedChanges(init);
      if last.kind == Added {
        var a := earlier + [last];
        assert AddedChanges(changes) == a;
        assert a[..|a| - 1] == earlier;
        calc {
          SnapshotNotifications(a, subs);
          SnapshotNotifications(earlier, subs) + Notifications(last.docId, last.data, subs);
          SnapshotNotifications(init, subs) + Notifications(last.docId, last.data, subs);
          SnapshotNotifications(changes, subs);
        }
      } else {
        assert AddedChanges(changes) == earlier + [];
        assert earlier + [] == earlier;
      }
    }
  }

  /** A snapshot without added documents sends nothing. */
  lemma {:induction false} NothingAddedNothingSent(changes: seq<Change>, subs: seq<KeywordSubscription>)
    requires forall i | 0 <= i < |changes| :: changes[i].kind != Added
    ensures SnapshotNotifications(changes, subs) == []
    decreases |changes|
  {
    if |changes| > 0 {
      NothingAddedNothingSent(changes[..|changes| - 1], subs);
    }
  }

  // ---------------------------------------------------------------------------
  // Properties of the token matcher
  // ---------------------------------------------------------------------------

  /** The tokens are the pieces of the type string between the slashes: none
      contains a slash, and joining the pieces with "/" gives the type back. */
  lemma EventTokensArePieces(kind: string)
    ensures forall t | t in EventTokens(kind) :: '/' !in t
    ensures Text.Join(Text.Split(kind, '/'), "/") == kind
  {
    Text.SplitPiecesFree(kind, '/');
    Text.JoinSplit(kind, '/');
  }

  /** A type string made of slash-free segments has exactly those segments as tokens. */
  lemma TokensOfSegments(segments: seq<string>)
    requires |segments| >= 1
    requires forall s | s in segments :: '/' !in s
    ensures EventTokens(Text.Join(segments, "/")) == set s | s in segments
  {
    Text.SplitJoin(segments, '/');
  }

  /** A keyword must equal a whole token, with the same letter case: for the
      type "proposal/created", "create" is inside the text but notifies nobody,
      "Created" neither, while "created" does. */
  lemma ExactTokenMatch(kind: string)
    requires kind == "proposal" + "/" + "created"
    ensures EventTokens(kind) == {"proposal", "created"}
    ensures Text.IsSubstring("create", kind) && !Notified(["create"], EventTokens(kind))
    ensures !Notified(["Created"], EventTokens(kind))
    ensures Notified(["created"], EventTokens(kind))
  {
    var segments := ["proposal", "created"];
    assert Text.Join(segments, "/") == kind;
    TokensOfSegments(segments);
    CreatedTokenKeywords(EventTokens(kind));
    assert kind[9..15] == "create";
    assert Text.OccursAt("create", kind, 9);
  }

  lemma CreatedTokenKeywords(tokens: set<string>)
    requires tokens == {"proposal", "created"}
    ensures !Notified(["create"], tokens) && !Notified(["Created"], tokens) && Notified(["created"], tokens)
  {
    assert "created" in ["created"];
  }

  /** A user with no keywords is never notified. */
  lemma NoKeywordsNoNotification(tokens: set<string>)
    ensures !Notified([], tokens)
  {
  }

  /** A notification goes to a user exactly when one of that user's subscription
      documents matches, and it always carries the event's message. */
  lemma {:induction false} NotificationsMembership(eventId: string, e: EventData, subs: seq<KeywordSubscription>, n: Notification)
    ensures n in Notifications(eventId, e, subs) <==>
            n.message == Message(eventId, e) &&
            exists i | 0 <= i < |subs| :: subs[i].userId == n.userId && Notified(subs[i].keywords, EventTokens(e.event))
    decreases |subs|
  {
    if |subs| > 0 {
      var init := subs[..|subs| - 1];
      NotificationsMembership(eventId, e, init, n);
      if exists i | 0 <= i < |subs| :: subs[i].userId == n.userId && Notified(subs[i].keywords, EventTokens(e.event)) {
        var i :| 0 <= i < |subs| && subs[i].userId == n.userId && Notified(subs[i].keywords, EventTokens(e.event));
        if i < |subs| - 1 {
          assert init[i] == subs[i];
        }
      }
      if exists i | 0 <= i < |init| :: init[i].userId == n.userId && Notified(init[i].keywords, EventTokens(e.event)) {
        var i :| 0 <= i < |init| && init[i].userId == n.userId && Notified(init[i].keywords, EventTokens(e.event));
        assert subs[i] == init[i];
      }
    }
  }

  /** With one document per user, no user is sent the same event twice. */
  lemma {:induction false} NotificationsOncePerUser(eventId: string, e: EventData, subs: seq<KeywordSubscription>)
    requires forall i, j | 0 <= i < j < |subs| :: subs[i].userId != subs[j].userId
    ensures forall i, j | 0 <= i < j < |Notifications(eventId, e, subs)| ::
              Notifications(eventId, e, subs)[i].userId != Notifications(eventId, e, subs)[j].userId
    decreases |subs|
  {
    if |subs| > 0 {
      var init := subs[..|subs| - 1];
      var last := subs[|subs| - 1];
      NotificationsOncePerUser(eventId, e, init);
      if Notified(last.keywords, EventTokens(e.event)) {
        var ns := Notifications(eventId, e, init);
        forall k | 0 <= k < |ns|
          ensures ns[k].userId != last.userId
        {
          NotificationsMembership(eventId, e, init, ns[k]);
          forall i | 0 <= i < |init|
            ensures init[i].userId != last.userId
          {
            assert init[i] == subs[i];
          }
        }
      }
    }
  }

  /** Reading the message back line by line recovers the header and the event
      id, event type, space, proposal id and expiry, each after its label, in
      that order, as long as no field itself holds a line feed. */
  lemma MessageReadsBack(eventId: string, e: EventData)
    requires '\n' !in eventId && '\n' !in e.event && '\n' !in e.space && '\n' !in e.id && '\n' !in e.expire
    ensures Text.Split(Message(eventId, e), '\n') == MessageLines(eventId, e)
  {
    MessageLinesSingle(eventId, e);
    Text.SplitJoin(MessageLines(eventId, e), '\n');
  }

  lemma MessageLinesSingle(eventId: string, e: EventData)
    requires '\n' !in eventId && '\n' !in e.event && '\n' !in e.space && '\n' !in e.id && '\n' !in e.expire
    ensures forall p | p in MessageLines(eventId, e) :: '\n' !in p
  {
    HeaderSingleLine();
    assert '\n' !in "Event ID: " + eventId;
    assert '\n' !in "Event Type: " + e.event;
    assert '\n' !in "Space: " + e.space;
    assert '\n' !in "Proposal ID: " + e.id;
    assert '\n' !in "Expire: " + e.expire;
  }

  lemma HeaderSingleLine()
    ensures '\n' !in Header
  {
    assert '\n' !in "An event matching ";
    assert '\n' !in "your subscription ";
    assert '\n' !in "has occurred:";
  }
}
