/** Conversation storage of apps/portal/src/lib/chat-storage.ts over an
    abstract store: conversation records by key, and per-user sorted sets of
    tags scored by last-update time. A record that is present but not valid
    JSON is `Unreadable`. The clock is a parameter (an ISO string per reading
    of `toISOString`, `nowMs` for the list score), and whether a text parses as
    JSON is the `isJson` parameter. Expiry times are not modelled. */
module ChatStorage {
  import opened Wrappers
  import opened Strings
  import opened ChatTag
  import SortedSet

  datatype Role = User | Assistant

  datatype ChatMessage = ChatMessage(role: Role, content: string, timestamp: string)

  datatype Conversation = Conversation(
    tag: string,
    title: string,
    summary: string,
    messages: seq<ChatMessage>,
    createdAt: string,
    updatedAt: string,
    userEmail: string,
    planReady: bool)

  datatype ConversationSummary = ConversationSummary(
    tag: string,
    title: string,
    summary: string,
    createdAt: string,
    updatedAt: string,
    messageCount: nat)

  datatype Record = Stored(conversation: Conversation) | Unreadable

  datatype Store = Store(records: map<string, Record>, lists: map<string, SortedSet.ZSet>)

  /** Every user's list is a well-formed sorted set. */
  predicate StoreValid(store: Store) {
    forall k | k in store.lists :: SortedSet.Valid(store.lists[k])
  }

  /** A user's tag list; an absent key reads as empty. */
  function ListOf(store: Store, userEmail: string): SortedSet.ZSet {
    var key := UserConversationsKey(userEmail);
    if key in store.lists then store.lists[key] else []
  }

  const SummaryLength: nat := 100
  const TitleLength: nat := 50
  const DefaultListLimit: nat := 20

  /** Index of the first user message, if any. */
  function FirstUserMessage(messages: seq<ChatMessage>): (k: Option<nat>)
    ensures k.Some? ==> k.value < |messages| && messages[k.value].role == User
    ensures k.Some? ==> forall j | 0 <= j < k.value :: messages[j].role != User
    ensures k.None? ==> forall j | 0 <= j < |messages| :: messages[j].role != User
  {
    if |messages| == 0 then None
    else if messages[0].role == User then Some(0)
    else match FirstUserMessage(messages[1..])
      case None => None
      case Some(k) => Some(k + 1)
  }

  /** `generateSummary`: empty without a user message; otherwise the first
      user message's first 100 characters, followed by `...` exactly when
      that message is longer. */
  function GenerateSummary(messages: seq<ChatMessage>): (summary: string)
    ensures FirstUserMessage(messages).None? ==> summary == ""
    ensures FirstUserMessage(messages).Some? ==>
              var content := messages[FirstUserMessage(messages).value].content;
              && (|content| > SummaryLength ==> summary == content[..SummaryLength] + "...")
              && (|content| <= SummaryLength ==> summary == content)
  {
    match FirstUserMessage(messages)
    case None => ""
    case Some(k) =>
      var content := messages[k].content;
      Take(content, SummaryLength) + (if |content| > SummaryLength then "..." else "")
  }

  /** A summary never runs past 103 characters. */
  lemma SummaryBounded(messages: seq<ChatMessage>)
    ensures |GenerateSummary(messages)| <= SummaryLength + 3
  {
  }

  /** `createConversation`: a fresh record under the generated tag, with no
      messages, an empty summary, no plan and the first 50 characters of the
      message as title, and the tag put at the head of the user's list. */
  function CreateConversation(
    store: Store, userEmail: string, firstMessage: string,
    month: nat, day: nat, nowIso: string, nowMs: int): (r: (Store, Conversation))
    requires month < 12
    ensures var c := r.1;
            && c.tag == GenerateTag(firstMessage, month, day)
            && c.messages == [] && c.summary == "" && !c.planReady
            && c.title == Take(firstMessage, TitleLength)
            && c.userEmail == userEmail
            && c.createdAt == nowIso && c.updatedAt == nowIso
    ensures r.0.records == store.records[ConversationKey(userEmail, r.1.tag) := Stored(r.1)]
    ensures SortedSet.Entry(r.1.tag, nowMs) in ListOf(r.0, userEmail)
    ensures forall e | e in ListOf(store, userEmail) && e.member != r.1.tag :: e in ListOf(r.0, userEmail)
    ensures forall u | u != userEmail :: ListOf(r.0, u) == ListOf(store, u)
    ensures StoreValid(store) ==> StoreValid(r.0)
  {
    UserConversationsKeyInjective();
    var tag := GenerateTag(firstMessage, month, day);
    var conversation := Conversation(tag, Take(firstMessage, TitleLength), "", [], nowIso, nowIso, userEmail, false);
    (Store(store.records[ConversationKey(userEmail, tag) := Stored(conversation)],
           store.lists[UserConversationsKey(userEmail) := SortedSet.Add(ListOf(store, userEmail), tag, nowMs)]),
     conversation)
  }

  /** What `addMessage` gives: `null` for a missing conversation, the
      updated conversation, or a thrown parse error for an unreadable
      record. */
  datatype AddResult = NotFound | Updated(store: Store, conversation: Conversation) | ParseError

  /** `addMessage`: on a stored conversation, append exactly one message,
      recompute the summary, set `planReady` when an assistant message is
      JSON (and never clear it), write it back and move the tag to the head
      of the list. Nothing is written otherwise. The clock is read twice: once
      for the message's timestamp (`sentIso`) and once for `updatedAt`
      (`updatedIso`). */
  function AddMessage(
    store: Store, userEmail: string, tag: string, role: Role, content: string,
    sentIso: string, updatedIso: string, nowMs: int, isJson: string -> bool): (r: AddResult)
    ensures ConversationKey(userEmail, tag) !in store.records <==> r == NotFound
    ensures r == ParseError <==>
              ConversationKey(userEmail, tag) in store.records
              && store.records[ConversationKey(userEmail, tag)] == Unreadable
    ensures r.Updated? ==>
              var key := ConversationKey(userEmail, tag);
              var prev := store.records[key].conversation;
              var c := r.conversation;
              && c.messages == prev.messages + [ChatMessage(role, content, sentIso)]
              && c.summary == GenerateSummary(c.messages)
              && (c.planReady <==> prev.planReady || (role == Assistant && isJson(content)))
              && c.updatedAt == updatedIso
              && c.(messages := prev.messages, summary := prev.summary, planReady := prev.planReady,
                    updatedAt := prev.updatedAt) == prev
              && r.store.records == store.records[key := Stored(c)]
              && SortedSet.Entry(tag, nowMs) in ListOf(r.store, userEmail)
              && (forall e | e in ListOf(store, userEmail) && e.member != tag :: e in ListOf(r.store, userEmail))
              && (forall u | u != userEmail :: ListOf(r.store, u) == ListOf(store, u))
              && (StoreValid(store) ==> StoreValid(r.store))
  {
    UserConversationsKeyInjective();
    var key := ConversationKey(userEmail, tag);
    if key !in store.records then NotFound
    else match store.records[key]
      case Unreadable => ParseError
      case Stored(prev) =>
        var messages := prev.messages + [ChatMessage(role, content, sentIso)];
        var planReady := prev.planReady || (role == Assistant && isJson(content));
        var c := prev.(messages := messages, updatedAt := updatedIso, summary := GenerateSummary(messages), planReady := planReady);
        Updated(Store(store.records[key := Stored(c)],
                      store.lists[UserConversationsKey(userEmail) := SortedSet.Add(ListOf(store, userEmail), tag, nowMs)]),
                c)
  }

  /** A sequence of messages added in turn, each to the result of the
      previous one. */
  function AddAll(c: Conversation, added: seq<(Role, string)>, nowIso: string, isJson: string -> bool): Conversation
    decreases |added|
  {
    if |added| == 0 then c
    else
      var messages := c.messages + [ChatMessage(added[0].0, added[0].1, nowIso)];
      var next := c.(messages := messages, updatedAt := nowIso, summary := GenerateSummary(messages),
                     planReady := c.planReady || (added[0].0 == Assistant && isJson(added[0].1)));
      AddAll(next, added[1..], nowIso, isJson)
  }

  /** Once a plan is ready it stays ready, and the earlier messages are
      never changed, whatever is added afterwards. */
  lemma {:induction false} PlanReadyIsSticky(c: Conversation, added: seq<(Role, string)>, nowIso: string, isJson: string -> bool)
    ensures c.planReady ==> AddAll(c, added, nowIso, isJson).planReady
    ensures |AddAll(c, added, nowIso, isJson).messages| == |c.messages| + |added|
    ensures AddAll(c, added, nowIso, isJson).messages[..|c.messages|] == c.messages
    decreases |added|
  {
    if |added| > 0 {
      var messages := c.messages + [ChatMessage(added[0].0, added[0].1, nowIso)];
      var next := c.(messages := messages, updatedAt := nowIso, summary := GenerateSummary(messages),
                     planReady := c.planReady || (added[0].0 == Assistant && isJson(added[0].1)));
      PlanReadyIsSticky(next, added[1..], nowIso, isJson);
      assert AddAll(next, added[1..], nowIso, isJson).messages[..|next.messages|] == next.messages;
      assert next.messages[..|c.messages|] == c.messages;
    }
  }

  function Summarize(c: Conversation): (s: ConversationSummary)
    ensures s.messageCount == |c.messages| && s.tag == c.tag && s.title == c.title && s.summary == c.summary
  {
    ConversationSummary(c.tag, c.title, c.summary, c.createdAt, c.updatedAt, |c.messages|)
  }

  /** Whether the record under a user's tag is a stored conversation. */
  predicate Readable(store: Store, userEmail: string, tag: string) {
    var key := ConversationKey(userEmail, tag);
    key in store.records && store.records[key].Stored?
  }

  /** `r` holds, in the order of `tags`, the summaries of exactly the tags
      at the positions `idx` picks: those whose record is a stored
      conversation. */
  ghost predicate Selects(store: Store, userEmail: string, tags: seq<string>, idx: seq<nat>, r: seq<ConversationSummary>) {
    && |idx| == |r|
    && (forall k | 0 <= k < |idx| :: idx[k] < |tags| && TagSummary(store, userEmail, tags[idx[k]]) == Some(r[k]))
    && (forall k, l | 0 <= k < l < |idx| :: idx[k] < idx[l])
    && (forall i | 0 <= i < |tags| && TagSummary(store, userEmail, tags[i]).Some? :: i in idx)
  }

  /** Positions one further on. */
  function Shift(idx: seq<nat>): (r: seq<nat>)
    ensures |r| == |idx| && forall k | 0 <= k < |idx| :: r[k] == idx[k] + 1
  {
    seq(|idx|, k requires 0 <= k < |idx| => idx[k] + 1)
  }

  /** Position 0, then the given positions one further on. */
  function ShiftAfterFirst(idx: seq<nat>): (r: seq<nat>)
    ensures |r| == |idx| + 1 && r[0] == 0 && forall k | 1 <= k < |r| :: r[k] == idx[k - 1] + 1
  {
    seq(|idx| + 1, k requires 0 <= k <= |idx| => if k == 0 then 0 else idx[k - 1] + 1)
  }

  /** A selection from the tags after the first extends to all of them,
      with the first tag's summary in front when its record is readable. */
  lemma SelectsCons(store: Store, userEmail: string, tags: seq<string>, rest: seq<ConversationSummary>, r: seq<ConversationSummary>)
    requires |tags| > 0 && exists idx :: Selects(store, userEmail, tags[1..], idx, rest)
    requires r == (if Readable(store, userEmail, tags[0])
                   then [Summarize(store.records[ConversationKey(userEmail, tags[0])].conversation)] + rest
                   else rest)
    ensures exists idx :: Selects(store, userEmail, tags, idx, r)
  {
    var idx' :| Selects(store, userEmail, tags[1..], idx', rest);
    match TagSummary(store, userEmail, tags[0])
    case None => SelectsSkip(store, userEmail, tags, idx', rest);
    case Some(head) => SelectsKeep(store, userEmail, tags, idx', rest, head);
  }

  lemma SelectsSkip(store: Store, userEmail: string, tags: seq<string>, idx': seq<nat>, rest: seq<ConversationSummary>)
    requires |tags| > 0 && TagSummary(store, userEmail, tags[0]).None?
    requires Selects(store, userEmail, tags[1..], idx', rest)
    ensures Selects(store, userEmail, tags, Shift(idx'), rest)
  {
    var idx := Shift(idx');
    forall k | 0 <= k < |idx|
      ensures idx[k] < |tags| && TagSummary(store, userEmail, tags[idx[k]]) == Some(rest[k])
    {
      assert tags[idx[k]] == tags[1..][idx'[k]];
    }
    forall i | 0 <= i < |tags| && TagSummary(store, userEmail, tags[i]).Some?
      ensures i in idx
    {
      assert tags[1..][i - 1] == tags[i];
      var k :| 0 <= k < |idx'| && idx'[k] == i - 1;
      assert idx[k] == i;
    }
  }

  lemma SelectsKeep(store: Store, userEmail: string, tags: seq<string>, idx': seq<nat>, rest: seq<ConversationSummary>,
                    head: ConversationSummary)
    requires |tags| > 0 && TagSummary(store, userEmail, tags[0]) == Some(head)
    requires Selects(store, userEmail, tags[1..], idx', rest)
    ensures Selects(store, userEmail, tags, ShiftAfterFirst(idx'), [head] + rest)
  {
    KeepPicks(store, userEmail, tags, idx', rest, head, [head] + rest);
    KeepCovers(store, userEmail, tags, idx', rest);
  }

  lemma KeepPicks(store: Store, userEmail: string, tags: seq<string>, idx': seq<nat>, rest: seq<ConversationSummary>,
                  head: ConversationSummary, r: seq<ConversationSummary>)
    requires |tags| > 0 && TagSummary(store, userEmail, tags[0]) == Some(head)
    requires Selects(store, userEmail, tags[1..], idx', rest)
    requires |r| == |rest| + 1 && r[0] == head && forall k | 1 <= k < |r| :: r[k] == rest[k - 1]
    ensures var idx := ShiftAfterFirst(idx');
            && |idx| == |r|
            && (forall k | 0 <= k < |idx| :: idx[k] < |tags| && TagSummary(store, userEmail, tags[idx[k]]) == Some(r[k]))
            && (forall k, l | 0 <= k < l < |idx| :: idx[k] < idx[l])
  {
    var idx := ShiftAfterFirst(idx');
    forall k | 0 <= k < |idx|
      ensures idx[k] < |tags| && TagSummary(store, userEmail, tags[idx[k]]) == Some(r[k])
    {
      if k > 0 {
        assert tags[idx[k]] == tags[1..][idx'[k - 1]];
      }
    }
    forall k, l | 0 <= k < l < |idx|
      ensures idx[k] < idx[l]
    {
      if k > 0 {
        assert idx'[k - 1] < idx'[l - 1];
      }
    }
  }

  lemma KeepCovers(store: Store, userEmail: string, tags: seq<string>, idx': seq<nat>, rest: seq<ConversationSummary>)
    requires |tags| > 0
    requires Selects(store, userEmail, tags[1..], idx', rest)
    ensures forall i | 0 <= i < |tags| && TagSummary(store, userEmail, tags[i]).Some? :: i in ShiftAfterFirst(idx')
  {
    var idx := ShiftAfterFirst(idx');
    forall i | 0 <= i < |tags| && TagSummary(store, userEmail, tags[i]).Some?
      ensures i in idx
    {
      if i > 0 {
        assert tags[1..][i - 1] == tags[i];
        var k :| 0 <= k < |idx'| && idx'[k] == i - 1;
        assert idx[k + 1] == i;
      }
    }
  }

  /** The summaries of the listed tags, in list order, skipping tags whose
      record is missing or unreadable. */
  function SummariesOf(store: Store, userEmail: string, tags: seq<string>): (r: seq<ConversationSummary>)
    ensures exists idx :: Selects(store, userEmail, tags, idx, r)
    ensures |r| <= |tags|
    ensures forall s | s in r :: exists i | 0 <= i < |tags| :: TagSummary(store, userEmail, tags[i]) == Some(s)
    ensures forall i | 0 <= i < |tags| && TagSummary(store, userEmail, tags[i]).Some? :: TagSummary(store, userEmail, tags[i]).value in r
  {
    if |tags| == 0 then
      assert Selects(store, userEmail, tags, [], []);
      []
    else
      var rest := SummariesOf(store, userEmail, tags[1..]);
      var r := if Readable(store, userEmail, tags[0]) then
                 [Summarize(store.records[ConversationKey(userEmail, tags[0])].conversation)] + rest
               else rest;
      SelectsCons(store, userEmail, tags, rest, r);
      SelectedMembers(store, userEmail, tags, r);
      r
  }

  /** A selection holds the summary of every readable tag and nothing
      else. */
  lemma SelectedMembers(store: Store, userEmail: string, tags: seq<string>, r: seq<ConversationSummary>)
    requires exists idx :: Selects(store, userEmail, tags, idx, r)
    ensures forall s | s in r :: exists i | 0 <= i < |tags| :: TagSummary(store, userEmail, tags[i]) == Some(s)
    ensures forall i | 0 <= i < |tags| && TagSummary(store, userEmail, tags[i]).Some? :: TagSummary(store, userEmail, tags[i]).value in r
  {
    var idx :| Selects(store, userEmail, tags, idx, r);
    SelectedOnly(store, userEmail, tags, idx, r);
    SelectedAll(store, userEmail, tags, idx, r);
  }

  lemma SelectedOnly(store: Store, userEmail: string, tags: seq<string>, idx: seq<nat>, r: seq<ConversationSummary>)
    requires Selects(store, userEmail, tags, idx, r)
    ensures forall s | s in r :: exists i | 0 <= i < |tags| :: TagSummary(store, userEmail, tags[i]) == Some(s)
  {
    forall s | s in r
      ensures exists i | 0 <= i < |tags| :: TagSummary(store, userEmail, tags[i]) == Some(s)
    {
      var k :| 0 <= k < |r| && r[k] == s;
      assert TagSummary(store, userEmail, tags[idx[k]]) == Some(s);
    }
  }

  lemma SelectedAll(store: Store, userEmail: string, tags: seq<string>, idx: seq<nat>, r: seq<ConversationSummary>)
    requires Selects(store, userEmail, tags, idx, r)
    ensures forall i | 0 <= i < |tags| && TagSummary(store, userEmail, tags[i]).Some? :: TagSummary(store, userEmail, tags[i]).value in r
  {
    forall i | 0 <= i < |tags| && TagSummary(store, userEmail, tags[i]).Some?
      ensures TagSummary(store, userEmail, tags[i]).value in r
    {
      var k :| 0 <= k < |idx| && idx[k] == i;
      assert r[k] == TagSummary(store, userEmail, tags[i]).value;
    }
  }

  /** The summary of a user's tag, when its record is a stored conversation. */
  function TagSummary(store: Store, userEmail: string, tag: string): Option<ConversationSummary> {
    if Readable(store, userEmail, tag) then Some(Summarize(store.records[ConversationKey(userEmail, tag)].conversation))
    else None
  }

  /** `listConversations(userEmail, limit)` as written: ZREVRANGE from 0 to
      `limit - 1`, then the readable records of those tags. Every summary
      is that of a readable conversation on the user's list, and for a
      positive limit there are at most `limit` of them and each readable
      one among the `limit` most recent is there. */
  function ListConversations(store: Store, userEmail: string, limit: int): (r: seq<ConversationSummary>)
    ensures limit >= 1 ==> |r| <= limit
    ensures limit >= 1 ==> MostRecentFirst(store, userEmail, ListOf(store, userEmail), limit, r)
    ensures forall s | s in r ::
              exists tag | tag in SortedSet.Members(ListOf(store, userEmail)) :: TagSummary(store, userEmail, tag) == Some(s)
    ensures limit >= 1 ==>
              forall i | 0 <= i < |ListOf(store, userEmail)| && i < limit ::
                TagSummary(store, userEmail, ListOf(store, userEmail)[i].member).Some? ==>
                  TagSummary(store, userEmail, ListOf(store, userEmail)[i].member).value in r
  {
    var r := SummariesOf(store, userEmail, SortedSet.RevRange(ListOf(store, userEmail), 0, limit - 1));
    ListedSummaries(store, userEmail, limit, r);
    if limit >= 1 then
      ListedInOrder(store, userEmail, limit, r);
      r
    else r
  }

  /** The `limit` highest-scored tags of a list, highest first. */
  function TopTags(z: SortedSet.ZSet, limit: nat): (tags: seq<string>)
    ensures |tags| == (if limit < |z| then limit else |z|)
    ensures forall i | 0 <= i < |tags| :: tags[i] == z[i].member
  {
    SortedSet.Members(z)[..if limit < |z| then limit else |z|]
  }

  /** `r` lists the readable conversations among the `limit` tags at the
      head of `z` in list order, so that, on a well-formed list, a summary
      never comes after one whose tag was updated earlier. */
  ghost predicate MostRecentFirst(store: Store, userEmail: string, z: SortedSet.ZSet, limit: nat, r: seq<ConversationSummary>) {
    exists idx ::
      && Selects(store, userEmail, TopTags(z, limit), idx, r)
      && (SortedSet.Valid(z) ==>
            forall k, l | 0 <= k < l < |idx| :: idx[k] < |z| && idx[l] < |z| && z[idx[k]].score >= z[idx[l]].score)
  }

  lemma ListedInOrder(store: Store, userEmail: string, limit: int, r: seq<ConversationSummary>)
    requires limit >= 1
    requires r == SummariesOf(store, userEmail, SortedSet.RevRange(ListOf(store, userEmail), 0, limit - 1))
    ensures MostRecentFirst(store, userEmail, ListOf(store, userEmail), limit, r)
  {
    var z := ListOf(store, userEmail);
    TopTagsRange(z, limit);
    var idx :| Selects(store, userEmail, TopTags(z, limit), idx, r);
    if SortedSet.Valid(z) {
      SelectedByScore(store, userEmail, z, limit, idx, r);
    }
  }

  /** ZREVRANGE from 0 to `limit - 1` reads the head of the list. */
  lemma TopTagsRange(z: SortedSet.ZSet, limit: int)
    requires limit >= 1
    ensures SortedSet.RevRange(z, 0, limit - 1) == TopTags(z, limit)
  {
  }

  lemma SelectedByScore(store: Store, userEmail: string, z: SortedSet.ZSet, limit: nat, idx: seq<nat>, r: seq<ConversationSummary>)
    requires SortedSet.Valid(z) && Selects(store, userEmail, TopTags(z, limit), idx, r)
    ensures forall k, l | 0 <= k < l < |idx| :: idx[k] < |z| && idx[l] < |z| && z[idx[k]].score >= z[idx[l]].score
  {
    forall k, l | 0 <= k < l < |idx|
      ensures idx[k] < |z| && idx[l] < |z| && z[idx[k]].score >= z[idx[l]].score
    {
      assert idx[k] < idx[l] < |TopTags(z, limit)|;
    }
  }

  lemma ListedSummaries(store: Store, userEmail: string, limit: int, r: seq<ConversationSummary>)
    requires r == SummariesOf(store, userEmail, SortedSet.RevRange(ListOf(store, userEmail), 0, limit - 1))
    ensures forall s | s in r ::
              exists tag | tag in SortedSet.Members(ListOf(store, userEmail)) :: TagSummary(store, userEmail, tag) == Some(s)
    ensures limit >= 1 ==>
              forall i | 0 <= i < |ListOf(store, userEmail)| && i < limit ::
                TagSummary(store, userEmail, ListOf(store, userEmail)[i].member).Some? ==>
                  TagSummary(store, userEmail, ListOf(store, userEmail)[i].member).value in r
  {
    var z := ListOf(store, userEmail);
    ListedFromList(store, userEmail, SortedSet.RevRange(z, 0, limit - 1), SortedSet.Members(z), r);
    if limit >= 1 {
      TopTagsRange(z, limit);
      ListedHead(store, userEmail, z, limit, r);
    }
  }

  lemma ListedFromList(store: Store, userEmail: string, tags: seq<string>, members: seq<string>, r: seq<ConversationSummary>)
    requires forall m | m in tags :: m in members
    requires r == SummariesOf(store, userEmail, tags)
    ensures forall s | s in r :: exists tag | tag in members :: TagSummary(store, userEmail, tag) == Some(s)
  {
    forall s | s in r
      ensures exists tag | tag in members :: TagSummary(store, userEmail, tag) == Some(s)
    {
      var i :| 0 <= i < |tags| && TagSummary(store, userEmail, tags[i]) == Some(s);
      assert tags[i] in tags;
    }
  }

  lemma ListedHead(store: Store, userEmail: string, z: SortedSet.ZSet, limit: nat, r: seq<ConversationSummary>)
    requires r == SummariesOf(store, userEmail, TopTags(z, limit))
    ensures forall i | 0 <= i < |z| && i < limit ::
              TagSummary(store, userEmail, z[i].member).Some? ==> TagSummary(store, userEmail, z[i].member).value in r
  {
    forall i | 0 <= i < |z| && i < limit
      ensures TagSummary(store, userEmail, z[i].member).Some? ==> TagSummary(store, userEmail, z[i].member).value in r
    {
      assert TopTags(z, limit)[i] == z[i].member;
    }
  }

  /** With a limit of 0 the stop index is -1, which Redis reads as "the last
      entry": every conversation is listed instead of none. */
  lemma ZeroLimitListsEverything(c: Conversation)
    ensures var store := Store(map[ConversationKey("a@x.io", "t-jan-1") := Stored(c)],
                               map[UserConversationsKey("a@x.io") := [SortedSet.Entry("t-jan-1", 1)]]);
            |ListConversations(store, "a@x.io", 0)| == 1
  {
    var store := Store(map[ConversationKey("a@x.io", "t-jan-1") := Stored(c)],
                       map[UserConversationsKey("a@x.io") := [SortedSet.Entry("t-jan-1", 1)]]);
    var z := ListOf(store, "a@x.io");
    assert z == [SortedSet.Entry("t-jan-1", 1)];
    assert SortedSet.Members(z) == ["t-jan-1"];
    assert SortedSet.RevRange(z, 0, -1) == ["t-jan-1"];
    assert Readable(store, "a@x.io", "t-jan-1");
  }

  /** `listConversations` with the limit honoured: no more than `limit`
      summaries, none for a limit of 0 or less, most recent first. */
  function ListConversationsBounded(store: Store, userEmail: string, limit: int): (r: seq<ConversationSummary>)
    ensures |r| <= (if limit < 0 then 0 else limit)
    ensures limit >= 1 ==> r == ListConversations(store, userEmail, limit)
  {
    if limit <= 0 then [] else ListConversations(store, userEmail, limit)
  }

  /** `listConversations(userEmail)` with the limit left at its default:
      the readable conversations among the 20 most recent, most recent
      first. */
  function ListRecent(store: Store, userEmail: string): (r: seq<ConversationSummary>)
    ensures |r| <= DefaultListLimit
    ensures MostRecentFirst(store, userEmail, ListOf(store, userEmail), DefaultListLimit, r)
  {
    ListConversations(store, userEmail, DefaultListLimit)
  }

  /** `deleteConversation`: reports whether a record existed, removes it,
      and always drops the tag from the user's list. */
  function DeleteConversation(store: Store, userEmail: string, tag: string): (r: (Store, bool))
    ensures r.1 <==> ConversationKey(userEmail, tag) in store.records
    ensures r.0.records == store.records - {ConversationKey(userEmail, tag)}
    ensures !SortedSet.HasMember(ListOf(r.0, userEmail), tag)
    ensures forall e | e in ListOf(store, userEmail) && e.member != tag :: e in ListOf(r.0, userEmail)
    ensures forall u | u != userEmail :: ListOf(r.0, u) == ListOf(store, u)
    ensures StoreValid(store) ==> StoreValid(r.0)
  {
    UserConversationsKeyInjective();
    var key := ConversationKey(userEmail, tag);
    var listKey := UserConversationsKey(userEmail);
    var lists := if listKey in store.lists then
                   SortedSet.RemoveValid(store.lists[listKey], tag);
                   store.lists[listKey := SortedSet.Remove(store.lists[listKey], tag)]
                 else store.lists;
    (Store(store.records - {key}, lists), key in store.records)
  }
}
