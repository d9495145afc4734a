/**
 * The matching step of the Firestore-triggered function that reacts to a new
 * proposal event: every user subscription is scanned, and a user matches when
 * the event's space id is among the user's projects, or when one of the user's
 * keywords occurs, case-insensitively, in the event's body or title. When at
 * least one user matches, a matched-event record holding the event and the
 * matched user ids is produced (and, outside this model, stored and published).
 */
module Matcher {
  import opened Wrappers
  import Text

  /** One document of the subscriptions collection: its id is the user's chat id;
      either list field may be missing from the document. */
  datatype UserSubscription = UserSubscription(
    id: string,
    projects: Option<seq<string>>,
    keywords: Option<seq<string>>)

  /** The fields of the event that the matcher reads. */
  datatype Event = Event(spaceId: string, title: string, body: string)

  /** The record written when at least one user matched. */
  datatype MatchedEvent = MatchedEvent(event: Event, matchedUsers: seq<string>)

  /** The keyword, lower-cased, occurs in the (already lower-cased) body or title. */
  predicate KeywordHit(keyword: string, bodyText: string, titleText: string) {
    Text.IsSubstring(Text.Lower(keyword), bodyText) || Text.IsSubstring(Text.Lower(keyword), titleText)
  }

  predicate ProjectHit(sub: UserSubscription, e: Event) {
    sub.projects.Some? && e.spaceId in sub.projects.value
  }

  predicate KeywordsHit(sub: UserSubscription, e: Event) {
    sub.keywords.Some? &&
    exists k | k in sub.keywords.value :: KeywordHit(k, Text.Lower(e.body), Text.Lower(e.title))
  }

  /** The user of `sub` is to be notified of `e`. */
  predicate Matches(sub: UserSubscription, e: Event) {
    ProjectHit(sub, e) || KeywordsHit(sub, e)
  }

  /** The ids of the matching subscriptions, in the order the subscriptions are scanned. */
  function MatchedUsers(subs: seq<UserSubscription>, e: Event): seq<string>
    decreases |subs|
  {
    if |subs| == 0 then []
    else
      var last := subs[|subs| - 1];
      MatchedUsers(subs[..|subs| - 1], e) + (if Matches(last, e) then [last.id] else [])
  }

  /** The scan itself: a project hit appends the id at once; otherwise the
      keywords are tried in order and the first hit appends the id and stops. */
  method MatchUsers(subs: seq<UserSubscription>, e: Event) returns (matched: seq<string>)
    ensures matched == MatchedUsers(subs, e)
  {
    var bodyText := Text.Lower(e.body);
    var titleText := Text.Lower(e.title);
    matched := [];
    for i := 0 to |subs|
      invariant matched == MatchedUsers(subs[..i], e)
    {
      var sub := subs[i];
      assert subs[..i + 1][..i] == subs[..i];
      if sub.projects.Some? && e.spaceId in sub.projects.value {
        matched := matched + [sub.id];
      } else if sub.keywords.Some? {
        var keywords := sub.keywords.value;
        var j := 0;
        while j < |keywords|
          invariant 0 <= j <= |keywords|
          invariant matched == MatchedUsers(subs[..i], e)
          invariant forall m | 0 <= m < j :: !KeywordHit(keywords[m], bodyText, titleText)
        {
          if KeywordHit(keywords[j], bodyText, titleText) {
            matched := matched + [sub.id];
            break;
          }
          j := j + 1;
        }
        if j == |keywords| {
          assert !KeywordsHit(sub, e) by {
            forall k | k in keywords
              ensures !KeywordHit(k, bodyText, titleText)
            {
              var m :| 0 <= m < |keywords| && keywords[m] == k;
            }
          }
        }
      }
    }
    assert subs[..|subs|] == subs;
  }

  /** The whole step: the matched-event record exists exactly when some user matched. */
  method MonitorSnapshotEvents(e: Event, subs: seq<UserSubscription>) returns (record: Option<MatchedEvent>)
    ensures record.None? <==> MatchedUsers(subs, e) == []
    ensures record.Some? ==> record.value == MatchedEvent(e, MatchedUsers(subs, e))
  {
    var matched := MatchUsers(subs, e);
    if matched != [] {
      record := Some(MatchedEvent(e, matched));
    } else {
      record := None;
    }
  }

  // ---------------------------------------------------------------------------
  // Properties of the matcher
  // ---------------------------------------------------------------------------

  /** A user id is in the result exactly when some scanned subscription carrying
      that id matches. */
  lemma {:induction false} MatchedUsersMembership(subs: seq<UserSubscription>, e: Event, u: string)
    ensures u in MatchedUsers(subs, e) <==>
            exists i | 0 <= i < |subs| :: subs[i].id == u && Matches(subs[i], e)
    decreases |subs|
  {
    if |subs| > 0 {
      var init := subs[..|subs| - 1];
      MatchedUsersMembership(init, e, u);
      if exists i | 0 <= i < |subs| :: subs[i].id == u && Matches(subs[i], e) {
        var i :| 0 <= i < |subs| && subs[i].id == u && Matches(subs[i], e);
        if i < |subs| - 1 {
          assert init[i] == subs[i];
        }
      }
      if exists i | 0 <= i < |init| :: init[i].id == u && Matches(init[i], e) {
        var i :| 0 <= i < |init| && init[i].id == u && Matches(init[i], e);
        assert subs[i] == init[i];
      }
    }
  }

  /** Scanning two batches of subscriptions one after the other gives the two
      results one after the other: the result follows the scan order, and
      each subscription contributes at most its own id. */
  lemma {:induction false} MatchedUsersAppend(a: seq<UserSubscription>, b: seq<UserSubscription>, e: Event)
    ensures MatchedUsers(a + b, e) == MatchedUsers(a, e) + MatchedUsers(b, e)
    decreases |b|
  {
    if |b| > 0 {
      var b' := b[..|b| - 1];
      assert (a + b)[..|a + b| - 1] == a + b';
      assert (a + b)[|a + b| - 1] == b[|b| - 1];
      MatchedUsersAppend(a, b', e);
    } else {
      assert a + b == a;
    }
  }

  predicate DistinctIds(subs: seq<UserSubscription>) {
    forall i, j | 0 <= i < j < |subs| :: subs[i].id != subs[j].id
  }

  /** Since document ids are unique, every user id is appended at most once. */
  lemma {:induction false} MatchedUsersDistinct(subs: seq<UserSubscription>, e: Event)
    requires DistinctIds(subs)
    ensures forall i, j | 0 <= i < j < |MatchedUsers(subs, e)| ::
              MatchedUsers(subs, e)[i] != MatchedUsers(subs, e)[j]
    decreases |subs|
  {
    if |subs| > 0 {
      var init := subs[..|subs| - 1];
      var last := subs[|subs| - 1];
      MatchedUsersDistinct(init, e);
      if Matches(last, e) {
        forall i | 0 <= i < |init|
          ensures init[i].id != last.id
        {
          assert init[i] == subs[i];
        }
        MatchedUsersMembership(init, e, last.id);
      }
    }
  }

  /** A user subscribed to the event's space is always in the result. */
  lemma ProjectSubscriberMatched(subs: seq<UserSubscription>, e: Event, i: nat)
    requires i < |subs|
    requires subs[i].projects.Some? && e.spaceId in subs[i].projects.value
    ensures subs[i].id in MatchedUsers(subs, e)
  {
    MatchedUsersMembership(subs, e, subs[i].id);
  }

  predicate EmptyOrMissing(field: Option<seq<string>>) {
    field.None? || field.value == []
  }

  /** A subscription with no projects and no keywords (missing or empty) never
      brings its user into the result. */
  lemma EmptySubscriptionNeverMatched(subs: seq<UserSubscription>, e: Event, i: nat)
    requires i < |subs| && DistinctIds(subs)
    requires EmptyOrMissing(subs[i].projects) && EmptyOrMissing(subs[i].keywords)
    ensures subs[i].id !in MatchedUsers(subs, e)
  {
    MatchedUsersMembership(subs, e, subs[i].id);
    assert !Matches(subs[i], e);
  }

  /** Matching ignores letter case in the body, the title and the keywords. */
  lemma MatchIgnoresCase(sub: UserSubscription, e: Event)
    ensures Matches(sub, e) == Matches(sub, Event(e.spaceId, Text.Lower(e.title), Text.Lower(e.body)))
    ensures Matches(sub, e) == Matches(sub.(keywords := LowerAll(sub.keywords)), e)
  {
    Text.LowerIdempotent(e.title);
    Text.LowerIdempotent(e.body);
    if sub.keywords.Some? {
      var ks := sub.keywords.value;
      var lowered := LowerAll(sub.keywords).value;
      var b, t := Text.Lower(e.body), Text.Lower(e.title);
      if exists k | k in ks :: KeywordHit(k, b, t) {
        var k :| k in ks && KeywordHit(k, b, t);
        var m :| 0 <= m < |ks| && ks[m] == k;
        Text.LowerIdempotent(k);
        assert lowered[m] in lowered && KeywordHit(lowered[m], b, t);
      }
      if exists k | k in lowered :: KeywordHit(k, b, t) {
        var k :| k in lowered && KeywordHit(k, b, t);
        var m :| 0 <= m < |lowered| && lowered[m] == k;
        Text.LowerIdempotent(ks[m]);
        assert ks[m] in ks && KeywordHit(ks[m], b, t);
      }
    }
  }

  function LowerAll(field: Option<seq<string>>): Option<seq<string>> {
    match field
    case None => None
    case Some(ks) => Some(seq(|ks|, i requires 0 <= i < |ks| => Text.Lower(ks[i])))
  }

  /** Keyword matching is substring containment, not word equality: the keyword
      "dao" matches the body "DAOcentral raised funds". */
  lemma KeywordIsSubstringNotWord()
    ensures Matches(UserSubscription("u1", None, Some(["dao"])),
                    Event("s1", "", "DAOcentral raised funds"))
  {
    var body := Text.Lower("DAOcentral raised funds");
    assert body[0..3] == "dao";
    assert Text.Lower("dao") == "dao";
    assert Text.OccursAt("dao", body, 0);
    assert KeywordHit("dao", body, Text.Lower(""));
  }

  /** Because `"" in text` holds for every text, a stored empty keyword matches every event. */
  lemma EmptyKeywordMatchesEverything(sub: UserSubscription, e: Event)
    requires sub.keywords.Some? && "" in sub.keywords.value
    ensures Matches(sub, e)
  {
    Text.EmptyIsSubstring(Text.Lower(e.body));
    assert Text.Lower("") == "";
    assert KeywordHit("", Text.Lower(e.body), Text.Lower(e.title));
  }
}
