/**
 * The chat bot's command handlers in their Cloud Run version: `/subscribe`
 * with a "keyword" or "project" list, `/unsubscribe`, and `/list_subscriptions`.
 * Each user's subscription document holds a `keywords` and a `projects` list;
 * subscribe creates it or merges into it with Firestore's ArrayUnion.
 * Unsubscribe and list work on per-user `projects` and `keywords`
 * sub-collections instead, which subscribe never writes; the store keeps both
 * so that this is visible.
 */
module CloudRunBot {
  import opened Wrappers
  import Text
  import ArrayOps

  const ProvideReply := "Please provide a project or keyword."
  const NoSubscriptionsReply := "You have no subscriptions."
  const Subscribed := "subscribed to"
  const Unsubscribed := "unsubscribed from"

  /** The outcome of checking a command's arguments. */
  datatype Parsed = Rejected | Items(projects: seq<string>, keywords: seq<string>)

  /** The last check of both handlers: nothing to do is rejected. */
  function NonEmpty(projects: seq<string>, keywords: seq<string>): Parsed {
    if projects == [] && keywords == [] then Rejected else Items(projects, keywords)
  }

  /** `/subscribe keyword a b ...` or `/subscribe project x y ...`: the first
      word says which list the remaining words go to. */
  function ParseSubscribe(args: seq<string>): (r: Parsed)
    ensures r.Items? <==> |args| >= 2 && (args[0] == "keyword" || args[0] == "project")
    ensures r.Items? && args[0] == "keyword" ==> r.keywords == args[1..] && r.projects == []
    ensures r.Items? && args[0] == "project" ==> r.projects == args[1..] && r.keywords == []
  {
    if |args| < 2 then Rejected
    else if args[0] == "keyword" then NonEmpty([], args[1..])
    else if args[0] == "project" then NonEmpty(args[1..], [])
    else Rejected
  }

  /** One user's subscription document. */
  datatype UserDoc = UserDoc(keywords: seq<string>, projects: seq<string>)

  function Lookup(docs: map<string, UserDoc>, userId: string): Option<UserDoc> {
    if userId in docs then Some(docs[userId]) else None
  }

  /** The document a subscribe is written to produce: a new document holds
      exactly the given lists; an existing one has them merged in by ArrayUnion. */
  function Merge(existing: Option<UserDoc>, projects: seq<string>, keywords: seq<string>): UserDoc {
    match existing
    case None => UserDoc(keywords, projects)
    case Some(d) => UserDoc(ArrayOps.ArrayUnion(d.keywords, keywords), ArrayOps.ArrayUnion(d.projects, projects))
  }

  /** How a handler ends: with a reply, or with the error the Firestore client
      raises when `firestore.ArrayUnion` is built from an empty list, which ends
      the handler before it writes or replies. */
  datatype Outcome = Reply(text: string) | EmptyUnionError

  /** The store after the subscribe write, or None when the write is never
      made: the update of an existing document builds one ArrayUnion per list,
      and an empty list makes that construction fail. */
  function SubscribeWrite(docs: map<string, UserDoc>, userId: string, projects: seq<string>, keywords: seq<string>)
    : Option<map<string, UserDoc>>
  {
    if userId in docs && (keywords == [] || projects == []) then None
    else Some(docs[userId := Merge(Lookup(docs, userId), projects, keywords)])
  }

  /** The reply to a successful subscribe or unsubscribe: one line for the
      projects and one for the keywords, singular for one item and plural with
      a ", "-joined list for several. As in the handlers, only the plural
      keyword line lacks the final line feed. */
  function ChangeReply(verb: string, projects: seq<string>, keywords: seq<string>): string {
    (if projects == [] then ""
     else if |projects| == 1 then "Successfully " + verb + " project: " + projects[0] + "\n"
     else "Successfully " + verb + " projects: " + Text.Join(projects, ", ") + "\n")
    +
    (if keywords == [] then ""
     else if |keywords| == 1 then "Successfully " + verb + " keyword: " + keywords[0] + "\n"
     else "Successfully " + verb + " keywords: " + Text.Join(keywords, ", "))
  }

  /** The `[1:]` slice of a list: everything after the first element, or nothing. */
  function Rest(words: seq<string>): seq<string> {
    if |words| == 0 then [] else words[1..]
  }

  /** What `/unsubscribe` collects: for each argument starting with "project"
      (or else with "keyword"), the words of that argument after its first word. */
  function UnsubscribeItems(args: seq<string>): (seq<string>, seq<string>)
    decreases |args|
  {
    if |args| == 0 then ([], [])
    else
      var (projects, keywords) := UnsubscribeItems(args[..|args| - 1]);
      var arg := args[|args| - 1];
      if Text.StartsWith(arg, "project") then (projects + Rest(Text.Words(arg)), keywords)
      else if Text.StartsWith(arg, "keyword") then (projects, keywords + Rest(Text.Words(arg)))
      else (projects, keywords)
  }

  /** The handler's loop over the arguments. */
  method CollectUnsubscribeItems(args: seq<string>) returns (projects: seq<string>, keywords: seq<string>)
    ensures (projects, keywords) == UnsubscribeItems(args)
  {
    projects, keywords := [], [];
    for i := 0 to |args|
      invariant (projects, keywords) == UnsubscribeItems(args[..i])
    {
      assert args[..i + 1][..i] == args[..i];
      var arg := args[i];
      if Text.StartsWith(arg, "project") {
        projects := projects + Rest(Text.Words(arg));
      } else if Text.StartsWith(arg, "keyword") {
        keywords := keywords + Rest(Text.Words(arg));
      }
    }
    assert args[..|args|] == args;
  }

  /** The checks of `/unsubscribe`: no arguments, or nothing collected, is rejected. */
  function ParseUnsubscribe(args: seq<string>): Parsed {
    if args == [] then Rejected
    else
      var (projects, keywords) := UnsubscribeItems(args);
      NonEmpty(projects, keywords)
  }

  /** The reply to `/list_subscriptions`, given the ids streamed from the two sub-collections. */
  function ListReply(projects: seq<string>, keywords: seq<string>): string {
    if projects == [] && keywords == [] then NoSubscriptionsReply
    else
      (if projects == [] then "" else "Your current project subscriptions: " + Text.Join(projects, ", ") + "\n") +
      (if keywords == [] then "" else "Your current keyword subscriptions: " + Text.Join(keywords, ", ") + "\n")
  }

  /** The ids stored in one user's sub-collection (none when it is absent). */
  function Entries(collection: map<string, seq<string>>, userId: string): seq<string> {
    if userId in collection then collection[userId] else []
  }

  /** Deleting the documents `ids` of one user's sub-collection; deleting a
      document that does not exist does nothing. */
  function DeleteEntries(collection: map<string, seq<string>>, userId: string, ids: seq<string>): map<string, seq<string>> {
    if userId in collection then collection[userId := ArrayOps.ArrayRemove(collection[userId], ids)] else collection
  }

  /** The document store as the three handlers see it. */
  class SubscriptionStore {
    /** The subscription documents, by user id. */
    var docs: map<string, UserDoc>
    /** The document ids in each user's `projects` sub-collection, in stream order. */
    var projectEntries: map<string, seq<string>>
    /** The document ids in each user's `keywords` sub-collection, in stream order. */
    var keywordEntries: map<string, seq<string>>

    constructor ()
      ensures docs == map[] && projectEntries == map[] && keywordEntries == map[]
    {
      docs, projectEntries, keywordEntries := map[], map[], map[];
    }

    /** `/subscribe`: a rejected command writes nothing; otherwise a missing
        document is created from the parsed lists, and an existing one is
        updated with an ArrayUnion of each list, which fails when that list is
        empty. */
    method Subscribe(userId: string, args: seq<string>) returns (outcome: Outcome)
      modifies this
      ensures ParseSubscribe(args).Rejected? ==> docs == old(docs) && outcome == Reply(ProvideReply)
      ensures ParseSubscribe(args).Items? ==>
                var Items(projects, keywords) := ParseSubscribe(args);
                var written := SubscribeWrite(old(docs), userId, projects, keywords);
                (written.None? ==> docs == old(docs) && outcome == EmptyUnionError) &&
                (written.Some? ==> docs == written.value && outcome == Reply(ChangeReply(Subscribed, projects, keywords)))
      ensures projectEntries == old(projectEntries) && keywordEntries == old(keywordEntries)
    {
      var parsed := ParseSubscribe(args);
      if parsed.Rejected? {
        outcome := Reply(ProvideReply);
        return;
      }
      var written := Write(userId, parsed.projects, parsed.keywords);
      if written {
        outcome := Reply(ChangeReply(Subscribed, parsed.projects, parsed.keywords));
      } else {
        outcome := EmptyUnionError;
      }
    }

    /** The store write of `/subscribe`: `set` for a missing document, and for
        an existing one `update` with an ArrayUnion per list, whose construction
        fails on an empty list before anything is written. */
    method Write(userId: string, projects: seq<string>, keywords: seq<string>) returns (written: bool)
      modifies this
      ensures var w := SubscribeWrite(old(docs), userId, projects, keywords);
              written == w.Some? && docs == (if written then w.value else old(docs))
      ensures projectEntries == old(projectEntries) && keywordEntries == old(keywordEntries)
    {
      if userId !in docs {
        docs := docs[userId := UserDoc(keywords, projects)];
        return true;
      }
      if keywords == [] || projects == [] {
        return false;
      }
      docs := docs[userId := Merge(Some(docs[userId]), projects, keywords)];
      written := true;
    }

    /** `/unsubscribe`: deletes the collected ids from the caller's
        sub-collections; the subscription documents never change. */
    method Unsubscribe(userId: string, args: seq<string>) returns (reply: string)
      modifies this
      ensures docs == old(docs)
      ensures ParseUnsubscribe(args).Rejected? ==>
                reply == ProvideReply &&
                projectEntries == old(projectEntries) && keywordEntries == old(keywordEntries)
      ensures ParseUnsubscribe(args).Items? ==>
                var Items(projects, keywords) := ParseUnsubscribe(args);
                projectEntries == DeleteEntries(old(projectEntries), userId, projects) &&
                keywordEntries == DeleteEntries(old(keywordEntries), userId, keywords) &&
                reply == ChangeReply(Unsubscribed, projects, keywords)
    {
      if args == [] {
        reply := ProvideReply;
        return;
      }
      var projects, keywords := CollectUnsubscribeItems(args);
      if projects == [] && keywords == [] {
        reply := ProvideReply;
        return;
      }
      projectEntries := DeleteEntries(projectEntries, userId, projects);
      keywordEntries := DeleteEntries(keywordEntries, userId, keywords);
      reply := ChangeReply(Unsubscribed, projects, keywords);
    }

    /** `/list_subscriptions`: reads the caller's two sub-collections. */
    method ListSubscriptions(userId: string) returns (reply: string)
      ensures reply == ListReply(Entries(projectEntries, userId), Entries(keywordEntries, userId))
    {
      var projects := Entries(projectEntries, userId);
      var keywords := Entries(keywordEntries, userId);
      reply := ListReply(projects, keywords);
    }
  }

  // ---------------------------------------------------------------------------
  // Properties
  // ---------------------------------------------------------------------------

  /** Once the length and first-word checks pass, the list handed on is never
      empty, so the later "neither projects nor keywords" check cannot fire. */
  lemma SubscribeEmptyCheckUnreachable(args: seq<string>)
    requires |args| >= 2 && (args[0] == "keyword" || args[0] == "project")
    ensures ParseSubscribe(args) == Items(if args[0] == "project" then args[1..] else [],
                                          if args[0] == "keyword" then args[1..] else [])
    ensures ParseSubscribe(args).projects + ParseSubscribe(args).keywords != []
  {
  }

  /** Subscribing keeps every stored entry in place and adds exactly the new ones. */
  lemma MergeKeepsAndAdds(d: UserDoc, projects: seq<string>, keywords: seq<string>, x: string)
    ensures var m := Merge(Some(d), projects, keywords);
            (x in m.keywords <==> x in d.keywords || x in keywords) &&
            (x in m.projects <==> x in d.projects || x in projects) &&
            |d.keywords| <= |m.keywords| && m.keywords[..|d.keywords|] == d.keywords &&
            |d.projects| <= |m.projects| && m.projects[..|d.projects|] == d.projects
  {
    ArrayOps.ArrayUnionMembers(d.keywords, keywords, x);
    ArrayOps.ArrayUnionMembers(d.projects, projects, x);
    ArrayOps.ArrayUnionKeepsPrefix(d.keywords, keywords);
    ArrayOps.ArrayUnionKeepsPrefix(d.projects, projects);
  }

  /** Repeating the same subscribe leaves the document as the first one left it,
      whether or not the document existed before. */
  lemma MergeIdempotent(existing: Option<UserDoc>, projects: seq<string>, keywords: seq<string>)
    ensures Merge(Some(Merge(existing, projects, keywords)), projects, keywords) == Merge(existing, projects, keywords)
  {
    match existing
    case None =>
      ArrayOps.ArrayUnionPresent(keywords, keywords);
      ArrayOps.ArrayUnionPresent(projects, projects);
    case Some(d) =>
      ArrayOps.ArrayUnionIdempotent(d.keywords, keywords);
      ArrayOps.ArrayUnionIdempotent(d.projects, projects);
  }

  /** An accepted `/subscribe` names either keywords or projects, never both,
      so its write succeeds exactly when the caller has no document yet, and
      then stores exactly the parsed lists. */
  lemma SubscribeSucceedsOnlyOnCreate(docs: map<string, UserDoc>, userId: string, args: seq<string>)
    requires ParseSubscribe(args).Items?
    ensures var Items(projects, keywords) := ParseSubscribe(args);
            var written := SubscribeWrite(docs, userId, projects, keywords);
            (written.Some? <==> userId !in docs) &&
            (written.Some? ==> written.value == docs[userId := UserDoc(keywords, projects)])
  {
    SubscribeEmptyCheckUnreachable(args);
  }

  /** So a second accepted `/subscribe` by the same user always fails and
      leaves the store as the first one left it. */
  lemma SubscribeTwiceSecondFails(docs: map<string, UserDoc>, userId: string, first: seq<string>, second: seq<string>)
    requires ParseSubscribe(first).Items? && ParseSubscribe(second).Items?
    requires SubscribeWrite(docs, userId, ParseSubscribe(first).projects, ParseSubscribe(first).keywords).Some?
    ensures var once := SubscribeWrite(docs, userId, ParseSubscribe(first).projects, ParseSubscribe(first).keywords).value;
            userId in once && SubscribeWrite(once, userId, ParseSubscribe(second).projects, ParseSubscribe(second).keywords).None?
  {
    SubscribeEmptyCheckUnreachable(second);
  }

  /** The reply is empty exactly when there is nothing to report. */
  lemma ChangeReplyEmpty(verb: string, projects: seq<string>, keywords: seq<string>)
    ensures ChangeReply(verb, projects, keywords) == "" <==> projects == [] && keywords == []
  {
    if projects != [] || keywords != [] {
      var r := ChangeReply(verb, projects, keywords);
      assert |r| >= |"Successfully "|;
    }
  }

  /** Every project and every keyword is named in the reply. */
  lemma ChangeReplyMentionsEach(verb: string, projects: seq<string>, keywords: seq<string>, x: string)
    requires x in projects || x in keywords
    ensures Text.IsSubstring(x, ChangeReply(verb, projects, keywords))
  {
    var pl := if projects == [] then ""
      else if |projects| == 1 then "Successfully " + verb + " project: " + projects[0] + "\n"
      else "Successfully " + verb + " projects: " + Text.Join(projects, ", ") + "\n";
    var kl := if keywords == [] then ""
      else if |keywords| == 1 then "Successfully " + verb + " keyword: " + keywords[0] + "\n"
      else "Successfully " + verb + " keywords: " + Text.Join(keywords, ", ");
    assert ChangeReply(verb, projects, keywords) == pl + kl;
    if x in projects {
      var k :| 0 <= k < |projects| && projects[k] == x;
      ItemLineMentions("Successfully " + verb + " project: ", "Successfully " + verb + " projects: ", projects, k);
      assert pl == LineFor("Successfully " + verb + " project: ", "Successfully " + verb + " projects: ", projects) + "\n";
      Text.SubstringInLeft(x, LineFor("Successfully " + verb + " project: ", "Successfully " + verb + " projects: ", projects), "\n");
      Text.SubstringInLeft(x, pl, kl);
    } else {
      var k :| 0 <= k < |keywords| && keywords[k] == x;
      ItemLineMentions("Successfully " + verb + " keyword: ", "Successfully " + verb + " keywords: ", keywords, k);
      if |keywords| == 1 {
        Text.SubstringInLeft(x, LineFor("Successfully " + verb + " keyword: ", "Successfully " + verb + " keywords: ", keywords), "\n");
      }
      Text.SubstringInRight(x, pl, kl);
    }
  }

  /** The line for one list, without its line feed. */
  function LineFor(singular: string, plural: string, items: seq<string>): string
    requires items != []
  {
    if |items| == 1 then singular + items[0] else plural + Text.Join(items, ", ")
  }

  lemma ItemLineMentions(singular: string, plural: string, items: seq<string>, k: nat)
    requires k < |items|
    ensures Text.IsSubstring(items[k], LineFor(singular, plural, items))
  {
    if |items| == 1 {
      Text.SubstringOfSelf(items[0]);
      Text.SubstringInRight(items[0], singular, items[0]);
    } else {
      Text.JoinMentionsEach(items, ", ", k);
      Text.SubstringInRight(items[k], plural, Text.Join(items, ", "));
    }
  }

  /** The plural wording is used exactly when more than one project is named. */
  lemma ChangeReplyPluralProjects(verb: string, projects: seq<string>, keywords: seq<string>)
    ensures Text.StartsWith(ChangeReply(verb, projects, keywords), "Successfully " + verb + " projects: ")
            <==> |projects| > 1
  {
    var r := ChangeReply(verb, projects, keywords);
    var plural := "Successfully " + verb + " projects: ";
    var n := |"Successfully " + verb + " "|;
    if |projects| > 1 {
      assert r[..|plural|] == plural;
    } else if |projects| == 1 {
      var singular := "Successfully " + verb + " project: ";
      assert r[..|singular|] == singular;
      assert singular[n + 7] == ':' && plural[n + 7] == 's';
    } else if keywords != [] {
      assert r[n] == 'k' && plural[n] == 'p';
    }
  }

  /** With one project, the singular wording names exactly that project. */
  lemma ChangeReplySingularProject(verb: string, projects: seq<string>, keywords: seq<string>)
    requires |projects| == 1
    ensures Text.StartsWith(ChangeReply(verb, projects, keywords),
                            "Successfully " + verb + " project: " + projects[0] + "\n")
  {
    var line := "Successfully " + verb + " project: " + projects[0] + "\n";
    assert ChangeReply(verb, projects, keywords)[..|line|] == line;
  }

  /** With no projects the reply is the keyword line alone: the singular line,
      ending in a line feed, exactly for one keyword, and the ", "-joined plural
      list, without a final line feed, exactly for several. */
  lemma ChangeReplyKeywordsOnly(verb: string, keywords: seq<string>)
    ensures |keywords| == 1 <==>
            keywords != [] && ChangeReply(verb, [], keywords) == "Successfully " + verb + " keyword: " + keywords[0] + "\n"
    ensures |keywords| > 1 <==>
            ChangeReply(verb, [], keywords) == "Successfully " + verb + " keywords: " + Text.Join(keywords, ", ")
  {
    var r := ChangeReply(verb, [], keywords);
    var plural := "Successfully " + verb + " keywords: " + Text.Join(keywords, ", ");
    var n := |"Successfully " + verb + " "|;
    assert plural[n + 7] == 's';
    if |keywords| == 1 {
      var singular := "Successfully " + verb + " keyword: " + keywords[0] + "\n";
      assert r == singular;
      assert singular[n + 7] == ':';
    } else if |keywords| > 1 {
      var singular := "Successfully " + verb + " keyword: " + keywords[0] + "\n";
      assert singular[n + 7] == ':';
    } else {
      assert r == "";
    }
  }

  /** `x` is a project to unsubscribe from, as named by the argument `arg`. */
  predicate ProjectItemIn(arg: string, x: string) {
    Text.StartsWith(arg, "project") && x in Rest(Text.Words(arg))
  }

  /** `x` is a keyword to unsubscribe from, as named by the argument `arg`. */
  predicate KeywordItemIn(arg: string, x: string) {
    !Text.StartsWith(arg, "project") && Text.StartsWith(arg, "keyword") && x in Rest(Text.Words(arg))
  }

  /** Items to unsubscribe come only from arguments starting with "project" or
      "keyword", and from the words after the first in such an argument. */
  lemma {:induction false} UnsubscribeItemsMembership(args: seq<string>, x: string)
    ensures x in UnsubscribeItems(args).0 <==> exists i | 0 <= i < |args| :: ProjectItemIn(args[i], x)
    ensures x in UnsubscribeItems(args).1 <==> exists i | 0 <= i < |args| :: KeywordItemIn(args[i], x)
    decreases |args|
  {
    if |args| > 0 {
      var init := args[..|args| - 1];
      var last := args[|args| - 1];
      UnsubscribeItemsMembership(init, x);
      UnsubscribeItemsLast(args, x);
      ExistsInPrefix(args, init, x);
    }
  }

  /** How the last argument adds to what the earlier ones collected. */
  lemma UnsubscribeItemsLast(args: seq<string>, x: string)
    requires |args| > 0
    ensures x in UnsubscribeItems(args).0 <==>
            x in UnsubscribeItems(args[..|args| - 1]).0 || ProjectItemIn(args[|args| - 1], x)
    ensures x in UnsubscribeItems(args).1 <==>
            x in UnsubscribeItems(args[..|args| - 1]).1 || KeywordItemIn(args[|args| - 1], x)
  {
  }

  /** A witness among all arguments is one among the earlier ones or the last one. */
  lemma ExistsInPrefix(args: seq<string>, init: seq<string>, x: string)
    requires |args| > 0 && init == args[..|args| - 1]
    ensures (exists i | 0 <= i < |args| :: ProjectItemIn(args[i], x)) <==>
            (exists i | 0 <= i < |init| :: ProjectItemIn(init[i], x)) || ProjectItemIn(args[|args| - 1], x)
    ensures (exists i | 0 <= i < |args| :: KeywordItemIn(args[i], x)) <==>
            (exists i | 0 <= i < |init| :: KeywordItemIn(init[i], x)) || KeywordItemIn(args[|args| - 1], x)
  {
    forall i | 0 <= i < |init|
      ensures init[i] == args[i]
    {
    }
  }

  /** Deleting ids from one user's sub-collection removes exactly those ids
      there; other users' entries and all other ids stay. */
  lemma DeleteEntriesMembers(collection: map<string, seq<string>>, userId: string, ids: seq<string>, owner: string, x: string)
    ensures x in Entries(DeleteEntries(collection, userId, ids), owner) <==>
            x in Entries(collection, owner) && (owner != userId || x !in ids)
  {
    if userId in collection {
      ArrayOps.ArrayRemoveMembers(collection[userId], ids, x);
    }
  }

  /** Chat commands hand over their arguments already split at whitespace; for
      such arguments `/unsubscribe` collects nothing and always rejects. */
  lemma {:induction false} UnsubscribeWordsCollectNothing(args: seq<string>)
    requires forall i | 0 <= i < |args| :: Text.NoSpace(args[i])
    ensures UnsubscribeItems(args) == ([], [])
    ensures ParseUnsubscribe(args) == Rejected
    decreases |args|
  {
    if |args| > 0 {
      var arg := args[|args| - 1];
      UnsubscribeWordsCollectNothing(args[..|args| - 1]);
      if Text.StartsWith(arg, "project") || Text.StartsWith(arg, "keyword") {
        assert arg != "";
        Text.OneWord(arg);
        assert Rest(Text.Words(arg)) == [];
      }
      var (projects, keywords) := UnsubscribeItems(args[..|args| - 1]);
      assert projects + [] == projects && keywords + [] == keywords;
    }
  }

  /** "You have no subscriptions." is the answer exactly when both sub-collections are empty. */
  lemma ListReplyNoSubscriptions(projects: seq<string>, keywords: seq<string>)
    ensures ListReply(projects, keywords) == NoSubscriptionsReply <==> projects == [] && keywords == []
  {
    if projects != [] || keywords != [] {
      var r := ListReply(projects, keywords);
      assert |r| > |"Your current project subscriptions: "|;
    }
  }

  /** Subscribing writes only the subscription documents, so on a fresh store
      the listing afterwards still reports no subscriptions. */
  method SubscribeThenList() returns (stored: UserDoc, listed: string)
    ensures stored == UserDoc(["dao"], [])
    ensures listed == NoSubscriptionsReply
  {
    var store := new SubscriptionStore();
    var outcome := store.Subscribe("42", ["keyword", "dao"]);
    stored := store.docs["42"];
    listed := store.ListSubscriptions("42");
  }

  /** On a fresh store, `/subscribe keyword dao` succeeds, and the following
      `/subscribe keyword gov` fails on the empty project union, leaving the
      document as the first command wrote it. */
  method SubscribeAgainFails() returns (first: Outcome, second: Outcome, stored: UserDoc)
    ensures first == Reply(ChangeReply(Subscribed, [], ["dao"]))
    ensures second == EmptyUnionError
    ensures stored == UserDoc(["dao"], [])
  {
    var store := new SubscriptionStore();
    first := store.Subscribe("42", ["keyword", "dao"]);
    second := store.Subscribe("42", ["keyword", "gov"]);
    stored := store.docs["42"];
  }
}
