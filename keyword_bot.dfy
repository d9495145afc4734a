/**
 * The first version of the chat bot: each user's subscription document holds
 * only a keyword list; `/subscribe` adds to it with ArrayUnion (creating the
 * document when needed), `/unsubscribe` takes away with ArrayRemove, and
 * `/list` shows it.
 */
module KeywordBot {
  import opened Wrappers
  import Text
  import ArrayOps

  const AskSubscribeReply := "Please provide keywords to subscribe to."
  const AskUnsubscribeReply := "Please provide keywords to unsubscribe from."
  const NoSubscriptionsReply := "You have no subscriptions."
  const ListPrefix := "Your current subscriptions: "

  /** What a handler ends with: a reply, or the store's "document not found"
      error, which ends the handler before it replies. */
  datatype Outcome = Reply(text: string) | NotFound

  /** The stored keyword list of a user; a missing document reads as no keywords. */
  function Stored(docs: map<string, seq<string>>, userId: string): seq<string> {
    if userId in docs then docs[userId] else []
  }

  function SubscribedReply(keywords: seq<string>): string {
    "Successfully subscribed to: " + Text.Join(keywords, ", ")
  }

  function UnsubscribedReply(keywords: seq<string>): string {
    "Successfully unsubscribed from: " + Text.Join(keywords, ", ")
  }

  /** The `/list` reply for a user's document, if there is one. */
  function ListReply(doc: Option<seq<string>>): string {
    match doc
    case None => NoSubscriptionsReply
    case Some(keywords) => ListPrefix + Text.Join(keywords, ", ")
  }

  class KeywordStore {
    /** The keyword list of each user's subscription document, by user id. */
    var docs: map<string, seq<string>>

    constructor ()
      ensures docs == map[]
    {
      docs := map[];
    }

    /** `/subscribe k1 k2 ...`: with no keywords nothing is written; otherwise
        the caller's list becomes its union with the keywords, and every other
        user's document stays as it was. */
    method Subscribe(userId: string, keywords: seq<string>) returns (reply: string)
      modifies this
      ensures keywords == [] ==> docs == old(docs) && reply == AskSubscribeReply
      ensures keywords != [] ==>
                docs == old(docs)[userId := ArrayOps.ArrayUnion(Stored(old(docs), userId), keywords)] &&
                reply == SubscribedReply(keywords)
      ensures forall u | u != userId :: (u in docs <==> u in old(docs)) && (u in docs ==> docs[u] == old(docs)[u])
    {
      if keywords == [] {
        reply := AskSubscribeReply;
        return;
      }
      docs := docs[userId := ArrayOps.ArrayUnion(Stored(docs, userId), keywords)];
      reply := SubscribedReply(keywords);
    }

    /** `/unsubscribe k1 k2 ...`: with no keywords nothing is written; for a
        user without a document the update fails; otherwise exactly the given
        keywords leave the caller's list. */
    method Unsubscribe(userId: string, keywords: seq<string>) returns (outcome: Outcome)
      modifies this
      ensures keywords == [] ==> docs == old(docs) && outcome == Reply(AskUnsubscribeReply)
      ensures keywords != [] && userId !in old(docs) ==> docs == old(docs) && outcome == NotFound
      ensures keywords != [] && userId in old(docs) ==>
                docs == old(docs)[userId := ArrayOps.ArrayRemove(old(docs)[userId], keywords)] &&
                outcome == Reply(UnsubscribedReply(keywords))
      ensures forall u | u != userId :: (u in docs <==> u in old(docs)) && (u in docs ==> docs[u] == old(docs)[u])
    {
      if keywords == [] {
        outcome := Reply(AskUnsubscribeReply);
        return;
      }
      if userId !in docs {
        outcome := NotFound;
        return;
      }
      docs := docs[userId := ArrayOps.ArrayRemove(docs[userId], keywords)];
      outcome := Reply(UnsubscribedReply(keywords));
    }

    /** `/list` */
    method ListSubscriptions(userId: string) returns (reply: string)
      ensures reply == ListReply(if userId in docs then Some(docs[userId]) else None)
    {
      if userId in docs {
        reply := ListPrefix + Text.Join(docs[userId], ", ");
      } else {
        reply := NoSubscriptionsReply;
      }
    }
  }

  // ---------------------------------------------------------------------------
  // Properties
  // ---------------------------------------------------------------------------

  /** After a subscribe, the caller holds every keyword held before and every
      keyword just given, and nothing else. */
  lemma SubscribeKeepsAndAdds(docs: map<string, seq<string>>, userId: string, keywords: seq<string>, k: string)
    ensures k in ArrayOps.ArrayUnion(Stored(docs, userId), keywords) <==> k in Stored(docs, userId) || k in keywords
  {
    ArrayOps.ArrayUnionMembers(Stored(docs, userId), keywords, k);
  }

  /** After an unsubscribe, exactly the given keywords are gone and all others remain. */
  lemma UnsubscribeRemovesExactly(stored: seq<string>, keywords: seq<string>, k: string)
    ensures k in ArrayOps.ArrayRemove(stored, keywords) <==> k in stored && k !in keywords
  {
    ArrayOps.ArrayRemoveMembers(stored, keywords, k);
  }

  /** Subscribing to keywords a user did not hold and unsubscribing from them
      again restores the store exactly, for a user who already had a document. */
  lemma SubscribeThenUnsubscribeRestores(docs: map<string, seq<string>>, userId: string, keywords: seq<string>)
    requires userId in docs
    requires forall k | k in keywords :: k !in docs[userId]
    ensures var added := docs[userId := ArrayOps.ArrayUnion(docs[userId], keywords)];
            added[userId := ArrayOps.ArrayRemove(added[userId], keywords)] == docs
  {
    ArrayOps.RemoveAfterFreshUnion(docs[userId], keywords);
  }

  /** For a user without a document the round trip leaves an empty document
      behind, which `/list` no longer reports as "no subscriptions". */
  lemma FreshUserKeepsEmptyDocument(docs: map<string, seq<string>>, userId: string, keywords: seq<string>)
    requires userId !in docs
    ensures var added := docs[userId := ArrayOps.ArrayUnion([], keywords)];
            var removed := added[userId := ArrayOps.ArrayRemove(added[userId], keywords)];
            removed == docs[userId := []] && ListReply(Some(removed[userId])) == ListPrefix
  {
    ArrayOps.RemoveAfterFreshUnion([], keywords);
  }

  /** "You have no subscriptions." is the answer exactly when the user has no document. */
  lemma ListReplyNoDocument(doc: Option<seq<string>>)
    ensures ListReply(doc) == NoSubscriptionsReply <==> doc.None?
  {
    if doc.Some? {
      assert |ListReply(doc)| >= |ListPrefix|;
    }
  }

  /** Every stored keyword is named in the listing. */
  lemma ListReplyMentionsEach(keywords: seq<string>, k: nat)
    requires k < |keywords|
    ensures Text.IsSubstring(keywords[k], ListReply(Some(keywords)))
  {
    Text.JoinMentionsEach(keywords, ", ", k);
    Text.SubstringInRight(keywords[k], ListPrefix, Text.Join(keywords, ", "));
  }

  /** A subscribe followed by the matching unsubscribe, on the store itself. */
  method SubscribeUnsubscribeRoundTrip(store: KeywordStore, userId: string, keywords: seq<string>)
    returns (subscribed: string, unsubscribed: Outcome)
    requires userId in store.docs && keywords != []
    requires forall k | k in keywords :: k !in store.docs[userId]
    modifies store
    ensures store.docs == old(store.docs)
    ensures subscribed == SubscribedReply(keywords) && unsubscribed == Reply(UnsubscribedReply(keywords))
  {
    SubscribeThenUnsubscribeRestores(store.docs, userId, keywords);
    subscribed := store.Subscribe(userId, keywords);
    unsubscribed := store.Unsubscribe(userId, keywords);
  }
}
