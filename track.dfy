/** The fan-out engine of `Timeline::Track`: `add_activity` stores the record
    once under its cache key in `global_item`, merging it into the actor's
    previous post when merge-similar asks for it, then pushes the key to the
    global feed, the actor's own feeds, the mentioned users' feeds and the
    recipients' activity feeds. */
module Track {
  import opened Values
  import opened Records
  import opened Mentions
  import opened Merging
  import opened KeyValue

  /** The feed every activity goes to. */
  const GLOBAL_ACTIVITY := "global:activity"

  /** The three per-user lists. */
  datatype Feed = PostsFeed | ActivityFeed | MentionsFeed

  function FeedSuffix(f: Feed): string {
    match f
    case PostsFeed => ":posts"
    case ActivityFeed => ":activity"
    case MentionsFeed => ":mentions"
  }

  /** `"user:id:#{id}:<feed>"`: the id is interpolated with `to_s`. */
  function UserList(id: Value, f: Feed): string {
    "user:id:" + ToS(id) + FeedSuffix(f)
  }

  /** The lists named after each id in turn. */
  function UserLists(ids: seq<Value>, f: Feed): (r: seq<string>)
    ensures |r| == |ids|
    ensures forall i :: 0 <= i < |ids| ==> r[i] == UserList(ids[i], f)
  {
    seq(|ids|, i requires 0 <= i < |ids| => UserList(ids[i], f))
  }

  lemma UserListsSnoc(ids: seq<Value>, x: Value, f: Feed)
    ensures UserLists(ids + [x], f) == UserLists(ids, f) + [UserList(x, f)]
  {
    assert forall i :: 0 <= i < |ids| ==> (ids + [x])[i] == ids[i];
  }

  /** Two user lists are the same list exactly when the ids render alike and
      the feed is the same: feeds never share a list. */
  lemma UserListInjective(a: Value, f: Feed, b: Value, g: Feed)
    ensures UserList(a, f) == UserList(b, g) <==> ToS(a) == ToS(b) && f == g
  {
    var s, t := UserList(a, f), UserList(b, g);
    if s == t {
      var sf, sg := FeedSuffix(f), FeedSuffix(g);
      assert s[|s| - 1] == sf[|sf| - 1] && t[|t| - 1] == sg[|sg| - 1];
      assert s[|s| - 2] == sf[|sf| - 2] && t[|t| - 2] == sg[|sg| - 2];
      assert f == g;
      assert ToS(a) == s[8..|s| - |sf|];
      assert ToS(b) == t[8..|t| - |sg|];
    }
  }

  /** The global feed is no user's list. */
  lemma GlobalIsNoUserList(id: Value, f: Feed)
    ensures GLOBAL_ACTIVITY != UserList(id, f)
  {
    assert GLOBAL_ACTIVITY[0] != UserList(id, f)[0];
  }

  /** How many of `ids` render as `x` does, that is, name the same user lists. */
  function CountIds(ids: seq<Value>, x: Value): nat
    decreases |ids|
  {
    if ids == [] then 0
    else CountIds(ids[..|ids| - 1], x) + (if ToS(ids[|ids| - 1]) == ToS(x) then 1 else 0)
  }

  /** Among the lists of `ids` for feed `f`, the list of `x` for feed `g`
      occurs once per id rendering as `x`, and never for another feed. */
  lemma {:induction false} CountUserLists(ids: seq<Value>, f: Feed, x: Value, g: Feed)
    ensures Count(UserLists(ids, f), UserList(x, g)) == if f == g then CountIds(ids, x) else 0
    decreases |ids|
  {
    if ids != [] {
      var init, last := ids[..|ids| - 1], ids[|ids| - 1];
      assert ids == init + [last];
      UserListsSnoc(init, last, f);
      assert UserLists(ids, f)[..|ids| - 1] == UserLists(init, f);
      CountUserLists(init, f, x, g);
      UserListInjective(last, f, x, g);
    }
  }

  lemma CountUserListsGlobal(ids: seq<Value>, f: Feed)
    ensures Count(UserLists(ids, f), GLOBAL_ACTIVITY) == 0
  {
    forall i | 0 <= i < |ids| ensures UserLists(ids, f)[i] != GLOBAL_ACTIVITY {
      GlobalIsNoUserList(ids[i], f);
    }
    CountZero(UserLists(ids, f), GLOBAL_ACTIVITY);
  }

  lemma CountThree(a: string, b: string, c: string, x: string)
    ensures Count([a, b, c], x) == (if a == x then 1 else 0) + (if b == x then 1 else 0) + (if c == x then 1 else 0)
  {
    assert [a, b, c][..2] == [a, b];
    assert [a, b][..1] == [a];
    assert [a][..0] == [];
    assert Count([a], x) == (if a == x then 1 else 0);
    assert Count([a, b], x) == Count([a], x) + (if b == x then 1 else 0);
  }

  /** `@followers`: an array of follower objects, or anything else (then it is
      ignored). */
  datatype Followers = NotAnArray | FollowerArray(subjects: seq<Subject>)

  /** What `add_activity` reads from the host besides the record: `@object`,
      `@follower_ids`, `@followers`, `@mentionable`, `options[:merge_similar]`,
      and the users `find_by_username` on the actor's class finds, as a map from
      handle to user id. */
  datatype Invocation = Invocation(
    obj: Subject,
    followerIds: Option<seq<Value>>,
    followers: Followers,
    mentionable: Option<string>,
    mergeOption: Value,
    usernames: map<string, Value>)

  /** `@merge_similar`: true only when the option is literally `true`; other
      truthy values (a string, a number) leave it off. */
  function MergeFlag(option: Value): (b: bool)
    ensures b ==> option.Bool? && Truthy(option)
    ensures option.Str? || option.Int? || !Truthy(option) ==> !b
    ensures option == Bool(true) ==> b
  {
    option == Bool(true)
  }

  /** `Array#any?`: some element is neither `nil` nor `false`. */
  predicate AnyTruthy(ids: seq<Value>) {
    exists i :: 0 <= i < |ids| && Truthy(ids[i])
  }

  /** The ids of the follower objects, in order. */
  function Ids(subjects: seq<Subject>): (r: seq<Value>)
    ensures |r| == |subjects| && forall i :: 0 <= i < |r| ==> r[i] == subjects[i].id
  {
    seq(|subjects|, i requires 0 <= i < |subjects| => subjects[i].id)
  }

  lemma IdsSnoc(subjects: seq<Subject>, i: nat)
    requires i < |subjects|
    ensures Ids(subjects[..i + 1]) == Ids(subjects[..i]) + [subjects[i].id]
  {
  }

  predicate IdsWin(inv: Invocation) {
    inv.followerIds.Some? && AnyTruthy(inv.followerIds.value)
  }

  predicate FollowersApply(inv: Invocation) {
    inv.followers.FollowerArray? && |inv.followers.subjects| > 0
  }

  /** Whose activity feeds receive the record: the follower ids when any of them
      is truthy, else the follower objects' ids when they form a non-empty
      array, else nobody. */
  function Recipients(inv: Invocation): (r: seq<Value>)
    ensures IdsWin(inv) ==> r == inv.followerIds.value
    ensures !IdsWin(inv) && inv.followers.FollowerArray? ==> r == Ids(inv.followers.subjects)
    ensures !IdsWin(inv) && !inv.followers.FollowerArray? ==> r == []
  {
    if IdsWin(inv) then inv.followerIds.value
    else if FollowersApply(inv) then Ids(inv.followers.subjects)
    else []
  }

  /** The mentionable field can be read, and is text, `nil` or `false`; any
      other value makes `scan` raise. */
  predicate MentionableReadable(inv: Invocation) {
    inv.mentionable.Some? ==>
      var f := inv.mentionable.value;
      f in inv.obj.attrs && (inv.obj.attrs[f].Str? || !Truthy(inv.obj.attrs[f]))
  }

  /** The text `add_mentions` scans: none without a mentionable field or when
      the field reads `nil` or `false`. */
  function MentionText(inv: Invocation): (r: Option<string>)
    requires MentionableReadable(inv)
    ensures r.None? <==> inv.mentionable.None? || !Truthy(inv.obj.attrs[inv.mentionable.value])
    ensures r.Some? ==> inv.obj.attrs[inv.mentionable.value] == Str(r.value)
  {
    if inv.mentionable.None? then None
    else
      match inv.obj.attrs[inv.mentionable.value]
      case Str(s) => Some(s)
      case _ => None
  }

  /** The ids of the mentioned users that exist, once per mention, in text order. */
  function MentionedIds(inv: Invocation): (r: seq<Value>)
    requires MentionableReadable(inv)
    ensures MentionText(inv).None? ==> r == []
    ensures MentionText(inv).Some? ==> |r| <= |Scan(MentionText(inv).value)|
    ensures forall i :: 0 <= i < |r| ==> r[i] in inv.usernames.Values
  {
    match MentionText(inv)
    case None => []
    case Some(text) => Resolve(Handles(text), inv.usernames)
  }

  /** `activity_item[:actor][:id]`: `nil` when the actor hash has no id. */
  function ActorId(item: Record): Value {
    if "id" in item.actor then item.actor["id"] else Nil
  }

  /** The lists pushed to, in push order: the global feed, the actor's
      activity and posts feeds, each mentioned user's mentions feed, each
      recipient's activity feed. */
  function FanOut(actorId: Value, mentioned: seq<Value>, recipients: seq<Value>): seq<string> {
    [GLOBAL_ACTIVITY, UserList(actorId, ActivityFeed), UserList(actorId, PostsFeed)]
      + UserLists(mentioned, MentionsFeed)
      + UserLists(recipients, ActivityFeed)
  }

  /** The push order of `add_activity`: the global feed, then the actor's
      activity and posts feeds, then the mentions feeds in mention order, then
      the recipients' activity feeds in recipient order. */
  lemma FanOutOrder(actorId: Value, mentioned: seq<Value>, recipients: seq<Value>)
    ensures var r := FanOut(actorId, mentioned, recipients);
      && |r| == 3 + |mentioned| + |recipients|
      && r[0] == GLOBAL_ACTIVITY
      && r[1] == UserList(actorId, ActivityFeed)
      && r[2] == UserList(actorId, PostsFeed)
      && (forall i :: 0 <= i < |mentioned| ==> r[3 + i] == UserList(mentioned[i], MentionsFeed))
      && (forall i :: 0 <= i < |recipients| ==> r[3 + |mentioned| + i] == UserList(recipients[i], ActivityFeed))
  {
  }

  /** Every list `add_activity` pushes to, in push order. */
  function FanOutLists(inv: Invocation, actorId: Value): seq<string>
    requires MentionableReadable(inv)
  {
    FanOut(actorId, MentionedIds(inv), Recipients(inv))
  }

  /** The previous post is similar: same verb and same target (both absent counts). */
  predicate Similar(previous: Record, item: Record): (b: bool)
    ensures previous.verb != item.verb || previous.target != item.target ==> !b
    ensures previous.(obj := item.obj, cacheKey := item.cacheKey, actor := item.actor, createdAt := item.createdAt) == item ==> b
  {
    previous.verb == item.verb && previous.target == item.target
  }

  /** The record `redis_store_item` writes: with merge on and a similar previous
      post, the object becomes the merge of both objects. */
  function Merged(item: Record, merge: bool, previous: Option<Record>): (r: Record)
    ensures r == item.(obj := r.obj)
    ensures merge && previous.Some? && Similar(previous.value, item) ==>
      r.obj == MergeObjects(previous.value.obj, item.obj)
    ensures !(merge && previous.Some? && Similar(previous.value, item)) ==> r == item
  {
    if merge && previous.Some? && Similar(previous.value, item) then
      item.(obj := MergeObjects(previous.value.obj, item.obj))
    else item
  }

  /** `global_item` after `redis_store_item`: with merge on, the previous post's
      key is gone, similar or not; the record is under its own key; no other
      entry changes. */
  function StoredItems(items: map<string, Record>, item: Record, merge: bool, previous: Option<Record>)
    : (r: map<string, Record>)
    ensures item.cacheKey in r && r[item.cacheKey] == Merged(item, merge, previous)
    ensures forall k :: k != item.cacheKey ==>
      (k in r <==> k in items && !(merge && previous.Some? && k == previous.value.cacheKey))
    ensures forall k :: k in r && k != item.cacheKey ==> r[k] == items[k]
  {
    var kept := if merge && previous.Some? then items - {previous.value.cacheKey} else items;
    kept[item.cacheKey := Merged(item, merge, previous)]
  }

  // ---------------------------------------------------------------------------
  // The engine

  /** `redis_add`: push the record's key to the front of `list`. */
  method RedisAdd(store: Store, list: string, item: Record)
    modifies store
    ensures store.lists == Push(old(store.lists), list, item.cacheKey)
    ensures store.items == old(store.items)
  {
    store.LPush(list, item.cacheKey);
  }

  method AddActivityByGlobal(store: Store, item: Record)
    modifies store
    ensures store.lists == Push(old(store.lists), GLOBAL_ACTIVITY, item.cacheKey)
    ensures store.items == old(store.items)
  {
    RedisAdd(store, GLOBAL_ACTIVITY, item);
  }

  method AddActivityByUser(store: Store, userId: Value, item: Record)
    modifies store
    ensures store.lists == Push(old(store.lists), UserList(userId, PostsFeed), item.cacheKey)
    ensures store.items == old(store.items)
  {
    RedisAdd(store, "user:id:" + ToS(userId) + ":posts", item);
  }

  method AddActivityToUser(store: Store, userId: Value, item: Record)
    modifies store
    ensures store.lists == Push(old(store.lists), UserList(userId, ActivityFeed), item.cacheKey)
    ensures store.items == old(store.items)
  {
    RedisAdd(store, "user:id:" + ToS(userId) + ":activity", item);
  }

  method AddMentionToUser(store: Store, userId: Value, item: Record)
    modifies store
    ensures store.lists == Push(old(store.lists), UserList(userId, MentionsFeed), item.cacheKey)
    ensures store.items == old(store.items)
  {
    RedisAdd(store, "user:id:" + ToS(userId) + ":mentions", item);
  }

  /** One push to each follower's activity feed, in array order. */
  method AddActivityToFollowers(store: Store, followers: seq<Subject>, item: Record)
    modifies store
    ensures store.lists == PushAll(old(store.lists), UserLists(Ids(followers), ActivityFeed), item.cacheKey)
    ensures store.items == old(store.items)
  {
    for i := 0 to |followers|
      invariant store.lists == PushAll(old(store.lists), UserLists(Ids(followers[..i]), ActivityFeed), item.cacheKey)
      invariant store.items == old(store.items)
    {
      AddActivityToUser(store, followers[i].id, item);
      IdsSnoc(followers, i);
      UserListsSnoc(Ids(followers[..i]), followers[i].id, ActivityFeed);
      PushAllSnoc(old(store.lists), UserLists(Ids(followers[..i]), ActivityFeed),
        UserList(followers[i].id, ActivityFeed), item.cacheKey);
    }
    assert followers[..|followers|] == followers;
  }

  /** One push to each id's activity feed, in order, `nil` and `false` included. */
  method AddActivityToFollowerIds(store: Store, ids: seq<Value>, item: Record)
    modifies store
    ensures store.lists == PushAll(old(store.lists), UserLists(ids, ActivityFeed), item.cacheKey)
    ensures store.items == old(store.items)
  {
    for i := 0 to |ids|
      invariant store.lists == PushAll(old(store.lists), UserLists(ids[..i], ActivityFeed), item.cacheKey)
      invariant store.items == old(store.items)
    {
      AddActivityToUser(store, ids[i], item);
      assert ids[..i + 1] == ids[..i] + [ids[i]];
      UserListsSnoc(ids[..i], ids[i], ActivityFeed);
      PushAllSnoc(old(store.lists), UserLists(ids[..i], ActivityFeed),
        UserList(ids[i], ActivityFeed), item.cacheKey);
    }
    assert ids[..|ids|] == ids;
  }

  /** `add_mentions`: one push to the mentions feed of the user each handle
      names, for every `@word` in the mentionable text; unknown handles are skipped. */
  method AddMentions(store: Store, inv: Invocation, item: Record)
    requires MentionableReadable(inv)
    modifies store
    ensures store.lists == PushAll(old(store.lists), UserLists(MentionedIds(inv), MentionsFeed), item.cacheKey)
    ensures store.items == old(store.items)
  {
    if inv.mentionable.None? {
      return;
    }
    var value := inv.obj.attrs[inv.mentionable.value];
    if !Truthy(value) {
      return;
    }
    var mentions := Scan(value.s);
    ghost var handles := Handles(value.s);
    ghost var lists0 := store.lists;
    assert MentionedIds(inv) == Resolve(handles, inv.usernames) by {
      assert MentionText(inv) == Some(value.s);
    }
    for i := 0 to |mentions|
      invariant store.lists == PushAll(lists0, UserLists(Resolve(handles[..i], inv.usernames), MentionsFeed), item.cacheKey)
      invariant store.items == old(store.items)
    {
      var handle := mentions[i][1..];
      assert handle == handles[i];
      ghost var before := Resolve(handles[..i], inv.usernames);
      ResolveStep(handles, i, inv.usernames);
      if handle in inv.usernames {
        AddMentionToUser(store, inv.usernames[handle], item);
        UserListsSnoc(before, inv.usernames[handle], MentionsFeed);
        PushAllSnoc(lists0, UserLists(before, MentionsFeed), UserList(inv.usernames[handle], MentionsFeed), item.cacheKey);
      } else {
        assert before + [] == before;
      }
    }
    assert handles[..|mentions|] == handles;
  }

  lemma ResolveStep(handles: seq<string>, i: nat, usernames: map<string, Value>)
    requires i < |handles|
    ensures Resolve(handles[..i + 1], usernames)
      == Resolve(handles[..i], usernames) + (if handles[i] in usernames then [usernames[handles[i]]] else [])
  {
    assert handles[..i + 1][..i] == handles[..i];
  }

  /** `redis_store_item`. `previous` is the record stored under the first key of
      the actor's posts list, if there is one. */
  method RedisStoreItem(store: Store, item: Record, merge: bool, previous: Option<Record>)
    returns (stored: Record)
    modifies store
    ensures stored == Merged(item, merge, previous)
    ensures store.items == StoredItems(old(store.items), item, merge, previous)
    ensures store.lists == old(store.lists)
  {
    stored := item;
    if merge {
      if previous.Some? {
        var last := previous.value;
        if last.verb == stored.verb && last.target == stored.target {
          stored := stored.(obj := MergeObjects(last.obj, stored.obj));
        }
        store.HDel(last.cacheKey);
      }
    }
    store.HSet(stored.cacheKey, stored);
  }

  /** `add_activity`: store the record, then push its key to every list of
      `FanOutLists`, in that order. */
  method AddActivity(store: Store, inv: Invocation, item: Record, previous: Option<Record>)
    requires MentionableReadable(inv)
    modifies store
    ensures store.items == StoredItems(old(store.items), item, MergeFlag(inv.mergeOption), previous)
    ensures store.lists == PushAll(old(store.lists), FanOutLists(inv, ActorId(item)), item.cacheKey)
    ensures item.cacheKey in store.items
  {
    ghost var lists0 := store.lists;
    ghost var key := item.cacheKey;
    var stored := RedisStoreItem(store, item, MergeFlag(inv.mergeOption), previous);
    assert stored.cacheKey == key && stored.actor == item.actor;
    ghost var items1 := store.items;
    var actorId := ActorId(stored);
    assert actorId == ActorId(item);
    AddActivityByGlobal(store, stored);
    AddActivityToUser(store, actorId, stored);
    AddActivityByUser(store, actorId, stored);
    ghost var own := [GLOBAL_ACTIVITY, UserList(actorId, ActivityFeed), UserList(actorId, PostsFeed)];
    PushThree(lists0, GLOBAL_ACTIVITY, UserList(actorId, ActivityFeed), UserList(actorId, PostsFeed), key);
    ghost var lists1 := store.lists;
    assert lists1 == PushAll(lists0, own, key);
    ghost var mentioned := UserLists(MentionedIds(inv), MentionsFeed);
    AddMentions(store, inv, stored);
    ghost var lists2 := store.lists;
    assert lists2 == PushAll(lists0, own + mentioned, key) by {
      PushAllAppend(lists0, own, mentioned, key);
    }
    ghost var recipients := UserLists(Recipients(inv), ActivityFeed);
    if inv.followerIds.Some? && AnyTruthy(inv.followerIds.value) {
      AddActivityToFollowerIds(store, inv.followerIds.value, stored);
    } else if inv.followers.FollowerArray? && |inv.followers.subjects| > 0 {
      AddActivityToFollowers(store, inv.followers.subjects, stored);
    } else {
      assert recipients == [];
    }
    assert store.lists == PushAll(lists2, recipients, key);
    assert store.items == items1;
    PushAllAppend(lists0, own + mentioned, recipients, key);
    assert FanOutLists(inv, actorId) == own + mentioned + recipients;
  }

  lemma PushThree(lists: Lists, a: string, b: string, c: string, key: string)
    ensures PushAll(lists, [a, b, c], key) == Push(Push(Push(lists, a, key), b, key), c, key)
  {
    assert [a, b, c][..2] == [a, b];
    assert [a, b][..1] == [a];
    assert [a][..0] == [];
    assert PushAll(lists, [a], key) == Push(lists, a, key);
    assert PushAll(lists, [a, b], key) == Push(Push(lists, a, key), b, key);
  }

  lemma PushAllSnoc(lists: Lists, names: seq<string>, name: string, key: string)
    ensures PushAll(lists, names + [name], key) == Push(PushAll(lists, names, key), name, key)
  {
    assert (names + [name])[..|names|] == names;
  }

  // ---------------------------------------------------------------------------
  // What the fan-out does to each list

  lemma CountFanOut(actorId: Value, m: seq<Value>, r: seq<Value>, name: string)
    ensures Count(FanOut(actorId, m, r), name)
      == Count([GLOBAL_ACTIVITY, UserList(actorId, ActivityFeed), UserList(actorId, PostsFeed)], name)
       + Count(UserLists(m, MentionsFeed), name)
       + Count(UserLists(r, ActivityFeed), name)
  {
    var own := [GLOBAL_ACTIVITY, UserList(actorId, ActivityFeed), UserList(actorId, PostsFeed)];
    var ms, rs := UserLists(m, MentionsFeed), UserLists(r, ActivityFeed);
    assert FanOut(actorId, m, r) == (own + ms) + rs;
    CountAppend(own + ms, rs, name);
    CountAppend(own, ms, name);
  }

  /** The global feed occurs once among the lists pushed to. */
  lemma CountFanOutGlobal(actorId: Value, m: seq<Value>, r: seq<Value>)
    ensures Count(FanOut(actorId, m, r), GLOBAL_ACTIVITY) == 1
  {
    CountFanOut(actorId, m, r, GLOBAL_ACTIVITY);
    CountThree(GLOBAL_ACTIVITY, UserList(actorId, ActivityFeed), UserList(actorId, PostsFeed), GLOBAL_ACTIVITY);
    GlobalIsNoUserList(actorId, ActivityFeed);
    GlobalIsNoUserList(actorId, PostsFeed);
    CountUserListsGlobal(m, MentionsFeed);
    CountUserListsGlobal(r, ActivityFeed);
  }

  /** How often a user's list occurs among the lists pushed to: the actor's
      activity and posts feeds once, a mentions feed once per mentioned id,
      an activity feed once more per recipient id. */
  lemma CountFanOutUser(actorId: Value, m: seq<Value>, r: seq<Value>, x: Value, g: Feed)
    ensures Count(FanOut(actorId, m, r), UserList(x, g))
      == (if ToS(x) == ToS(actorId) && g != MentionsFeed then 1 else 0)
       + (if g == MentionsFeed then CountIds(m, x) else 0)
       + (if g == ActivityFeed then CountIds(r, x) else 0)
  {
    var name := UserList(x, g);
    CountFanOut(actorId, m, r, name);
    CountThree(GLOBAL_ACTIVITY, UserList(actorId, ActivityFeed), UserList(actorId, PostsFeed), name);
    GlobalIsNoUserList(x, g);
    UserListInjective(actorId, ActivityFeed, x, g);
    UserListInjective(actorId, PostsFeed, x, g);
    CountUserLists(m, MentionsFeed, x, g);
    CountUserLists(r, ActivityFeed, x, g);
  }

  /** The global feed gets the key exactly once. */
  lemma FanOutGlobal(lists: Lists, inv: Invocation, actorId: Value, key: string)
    requires MentionableReadable(inv)
    ensures ListOf(PushAll(lists, FanOutLists(inv, actorId), key), GLOBAL_ACTIVITY)
      == [key] + ListOf(lists, GLOBAL_ACTIVITY)
  {
    var all := FanOutLists(inv, actorId);
    CountFanOutGlobal(actorId, MentionedIds(inv), Recipients(inv));
    PushAllAt(lists, all, key, GLOBAL_ACTIVITY);
    assert Repeat(key, 1) == [key];
  }

  /** Only the actor's posts list gets the key, once: that is where the next
      call finds its previous post. */
  lemma FanOutPosts(lists: Lists, inv: Invocation, actorId: Value, key: string, x: Value)
    requires MentionableReadable(inv)
    ensures ListOf(PushAll(lists, FanOutLists(inv, actorId), key), UserList(x, PostsFeed))
      == (if ToS(x) == ToS(actorId) then [key] else []) + ListOf(lists, UserList(x, PostsFeed))
  {
    var all := FanOutLists(inv, actorId);
    CountFanOutUser(actorId, MentionedIds(inv), Recipients(inv), x, PostsFeed);
    PushAllAt(lists, all, key, UserList(x, PostsFeed));
    assert Repeat(key, 1) == [key] && Repeat(key, 0) == [];
  }

  /** A user's activity feed gets the key once for being the actor and once
      more for every recipient id naming that user. */
  lemma FanOutActivity(lists: Lists, inv: Invocation, actorId: Value, key: string, x: Value)
    requires MentionableReadable(inv)
    ensures ListOf(PushAll(lists, FanOutLists(inv, actorId), key), UserList(x, ActivityFeed))
      == Repeat(key, (if ToS(x) == ToS(actorId) then 1 else 0) + CountIds(Recipients(inv), x))
       + ListOf(lists, UserList(x, ActivityFeed))
  {
    var all := FanOutLists(inv, actorId);
    CountFanOutUser(actorId, MentionedIds(inv), Recipients(inv), x, ActivityFeed);
    PushAllAt(lists, all, key, UserList(x, ActivityFeed));
  }

  /** A user's mentions feed gets the key once per mention resolving to that user. */
  lemma FanOutMentions(lists: Lists, inv: Invocation, actorId: Value, key: string, x: Value)
    requires MentionableReadable(inv)
    ensures ListOf(PushAll(lists, FanOutLists(inv, actorId), key), UserList(x, MentionsFeed))
      == Repeat(key, CountIds(MentionedIds(inv), x)) + ListOf(lists, UserList(x, MentionsFeed))
  {
    var all := FanOutLists(inv, actorId);
    CountFanOutUser(actorId, MentionedIds(inv), Recipients(inv), x, MentionsFeed);
    PushAllAt(lists, all, key, UserList(x, MentionsFeed));
  }

  /** The lists the engine writes: the global feed and the per-user feeds. */
  ghost predicate IsFeedList(name: string) {
    name == GLOBAL_ACTIVITY || exists id: Value, f: Feed :: name == UserList(id, f)
  }

  /** No list other than a feed list changes. */
  lemma OnlyFeedListsChange(lists: Lists, inv: Invocation, actorId: Value, key: string, name: string)
    requires MentionableReadable(inv)
    requires !IsFeedList(name)
    ensures ListOf(PushAll(lists, FanOutLists(inv, actorId), key), name) == ListOf(lists, name)
  {
    var all := FanOutLists(inv, actorId);
    var m, r := MentionedIds(inv), Recipients(inv);
    forall i | 0 <= i < |all| ensures all[i] != name {
      if i == 0 {
      } else if i == 1 {
        assert all[i] == UserList(actorId, ActivityFeed);
      } else if i == 2 {
        assert all[i] == UserList(actorId, PostsFeed);
      } else if i < 3 + |m| {
        assert all[i] == UserList(m[i - 3], MentionsFeed);
      } else {
        assert all[i] == UserList(r[i - 3 - |m|], ActivityFeed);
      }
    }
    PushAllElsewhere(lists, all, key, name);
  }

  // ---------------------------------------------------------------------------
  // Recipient selection

  /** With a truthy follower id, the ids decide and `@followers` is ignored. */
  lemma FollowerIdsWin(inv: Invocation, followers: Followers, actorId: Value)
    requires MentionableReadable(inv)
    requires inv.followerIds.Some? && AnyTruthy(inv.followerIds.value)
    ensures Recipients(inv) == inv.followerIds.value
    ensures FanOutLists(inv.(followers := followers), actorId) == FanOutLists(inv, actorId)
  {
    assert MentionedIds(inv.(followers := followers)) == MentionedIds(inv);
  }

  /** Ids that are all `nil` or `false` count as no ids: the follower objects
      decide. */
  lemma FalsyIdsIgnored(inv: Invocation, ids: seq<Value>)
    requires forall i :: 0 <= i < |ids| ==> !Truthy(ids[i])
    ensures Recipients(inv.(followerIds := Some(ids))) == Recipients(inv.(followerIds := None))
    ensures FollowersApply(inv) ==> Recipients(inv.(followerIds := Some(ids))) == Ids(inv.followers.subjects)
  {
    assert !AnyTruthy(ids);
  }

  /** Without recipients, nobody but the actor sees the record in an activity feed. */
  lemma NoRecipientsNoTimeline(lists: Lists, inv: Invocation, actorId: Value, key: string, x: Value)
    requires MentionableReadable(inv)
    requires !IdsWin(inv) && !FollowersApply(inv)
    requires ToS(x) != ToS(actorId)
    ensures ListOf(PushAll(lists, FanOutLists(inv, actorId), key), UserList(x, ActivityFeed))
      == ListOf(lists, UserList(x, ActivityFeed))
  {
    assert Recipients(inv) == [];
    assert CountIds([], x) == 0;
    FanOutActivity(lists, inv, actorId, key, x);
    assert Repeat(key, 0) == [];
  }

  // ---------------------------------------------------------------------------
  // Mentions

  /** No mentionable field, or one reading `nil` or `false`: no mentions feed changes. */
  lemma NoMentionWrites(lists: Lists, inv: Invocation, actorId: Value, key: string, x: Value)
    requires MentionableReadable(inv)
    requires MentionText(inv).None?
    ensures ListOf(PushAll(lists, FanOutLists(inv, actorId), key), UserList(x, MentionsFeed))
      == ListOf(lists, UserList(x, MentionsFeed))
  {
    FanOutMentions(lists, inv, actorId, key, x);
  }

  /** `"hello @alice and @bob, cc @alice"` with both users known: alice's
      mentions feed gets the key twice, bob's once. */
  lemma RepeatedMention(
    lists: Lists, inv: Invocation, actorId: Value, key: string,
    p1: string, a: string, p2: string, b: string, p3: string)
    requires inv.mentionable.Some? && inv.mentionable.value in inv.obj.attrs
    requires inv.obj.attrs[inv.mentionable.value] == Str(p1 + "@" + a + p2 + "@" + b + p3 + "@" + a)
    requires forall i :: 0 <= i < |p1| ==> p1[i] != '@'
    requires Gap(p2) && Gap(p3) && IsWord(a) && IsWord(b)
    requires a in inv.usernames && b in inv.usernames
    requires ToS(inv.usernames[a]) != ToS(inv.usernames[b])
    ensures MentionableReadable(inv)
    ensures MentionedIds(inv) == [inv.usernames[a], inv.usernames[b], inv.usernames[a]]
    ensures var after := PushAll(lists, FanOutLists(inv, actorId), key);
      && ListOf(after, UserList(inv.usernames[a], MentionsFeed)) == [key, key] + ListOf(lists, UserList(inv.usernames[a], MentionsFeed))
      && ListOf(after, UserList(inv.usernames[b], MentionsFeed)) == [key] + ListOf(lists, UserList(inv.usernames[b], MentionsFeed))
  {
    var ua, ub := inv.usernames[a], inv.usernames[b];
    MentionedIdsOfThree(inv, p1, a, p2, b, p3);
    CountIdsThree(ua, ub, ua);
    CountIdsThree(ua, ub, ub);
    FanOutMentions(lists, inv, actorId, key, ua);
    FanOutMentions(lists, inv, actorId, key, ub);
    assert Repeat(key, 2) == [key, key];
    assert Repeat(key, 1) == [key];
  }

  lemma MentionedIdsOfThree(inv: Invocation, p1: string, a: string, p2: string, b: string, p3: string)
    requires inv.mentionable.Some? && inv.mentionable.value in inv.obj.attrs
    requires inv.obj.attrs[inv.mentionable.value] == Str(p1 + "@" + a + p2 + "@" + b + p3 + "@" + a)
    requires forall i :: 0 <= i < |p1| ==> p1[i] != '@'
    requires Gap(p2) && Gap(p3) && IsWord(a) && IsWord(b)
    requires a in inv.usernames && b in inv.usernames
    ensures MentionableReadable(inv)
    ensures MentionedIds(inv) == [inv.usernames[a], inv.usernames[b], inv.usernames[a]]
  {
    var text := p1 + "@" + a + p2 + "@" + b + p3 + "@" + a;
    assert MentionText(inv) == Some(text);
    ThreeMentions(p1, a, p2, b, p3, inv.usernames);
  }

  lemma CountIdsThree(u: Value, v: Value, x: Value)
    ensures CountIds([u, v, u], x)
      == (if ToS(u) == ToS(x) then 2 else 0) + (if ToS(v) == ToS(x) then 1 else 0)
  {
    var ids := [u, v, u];
    assert ids[..2] == [u, v] && [u, v][..1] == [u] && [u][..0] == [];
    assert CountIds([u], x) == if ToS(u) == ToS(x) then 1 else 0;
  }

  // ---------------------------------------------------------------------------
  // The canonical store

  /** Merge-similar is on only for the literal `true`: anything else is a plain
      write that touches the record's own key and nothing else. */
  lemma PlainWrite(items: map<string, Record>, item: Record, option: Value, previous: Option<Record>)
    requires option != Bool(true)
    ensures StoredItems(items, item, MergeFlag(option), previous) == items[item.cacheKey := item]
  {
  }

  /** Writing the same record twice without merge leaves the store as one write does. */
  lemma PlainWriteIdempotent(items: map<string, Record>, item: Record, previous: Option<Record>)
    ensures var once := StoredItems(items, item, false, previous);
      StoredItems(once, item, false, previous) == once
  {
  }

  /** A similar previous post: the stored object holds every object hash of
      both, each once, the previous post's key is gone, and the rest of the
      record is the new one. */
  lemma MergeOnMatch(items: map<string, Record>, item: Record, previous: Record)
    requires Similar(previous, item)
    ensures var r := StoredItems(items, item, true, Some(previous));
      && r[item.cacheKey] == item.(obj := r[item.cacheKey].obj)
      && r[item.cacheKey].obj.Many? && NoDup(r[item.cacheKey].obj.refs)
      && (forall h :: h in r[item.cacheKey].obj.refs <==> h in Flatten(previous.obj) || h in Flatten(item.obj))
      && (previous.cacheKey != item.cacheKey ==> previous.cacheKey !in r)
  {
  }

  /** With merge on, the previous post's record is deleted even when it is not
      similar, and the new record is stored unchanged. */
  lemma PreviousDeletedEvenWhenDissimilar(items: map<string, Record>, item: Record, previous: Record)
    requires !Similar(previous, item)
    requires previous.cacheKey != item.cacheKey
    ensures var r := StoredItems(items, item, true, Some(previous));
      previous.cacheKey !in r && r[item.cacheKey] == item
  {
  }

  /** Two consecutive `like`s of the same target with objects O1 then O2: only
      the second key survives, holding `[O1, O2]` and the common target. The
      second write's previous post is `items1[r1.cacheKey]`: the record stored
      under the key at the front of the actor's `:posts` list, which
      `FanOutPosts` shows the first `AddActivity` put there. */
  lemma LikeThenLikeCollapses(items: map<string, Record>, r1: Record, r2: Record, o1: Ref, o2: Ref)
    requires r1.obj == One(o1) && r2.obj == One(o2) && o1 != o2
    requires r1.verb == r2.verb && r1.target == r2.target
    requires r1.cacheKey != r2.cacheKey
    ensures var items1 := StoredItems(items, r1, true, None);
      var items2 := StoredItems(items1, r2, true, Some(items1[r1.cacheKey]));
      && r1.cacheKey !in items2
      && items2[r2.cacheKey].obj == Many([o1, o2])
      && items2[r2.cacheKey].target == r1.target
  {
    MergeTwoSingles(o1, o2);
  }

  /** Two consecutive posts with different verbs: the first record is gone from
      the store and the second is stored as built. */
  lemma DissimilarNextPostDeletesFirst(items: map<string, Record>, r1: Record, r2: Record)
    requires r1.verb != r2.verb
    requires r1.cacheKey != r2.cacheKey
    ensures var items1 := StoredItems(items, r1, true, None);
      var items2 := StoredItems(items1, r2, true, Some(items1[r1.cacheKey]));
      && r1.cacheKey !in items2
      && items2[r2.cacheKey] == r2
  {
  }

  /** The actor id the lists are named after: the actor's own id, unless an
      extra field named `id` is listed for the actor's type, in which case it
      is that field of the object. */
  lemma ActorIdOfActivity(
    verb: string, actor: Subject, obj: Subject, target: Option<Subject>,
    fieldsFor: map<string, seq<string>>, seconds: nat, createdAt: int)
    requires Buildable(actor, obj, target, fieldsFor)
    ensures ActorId(Activity(verb, actor, obj, target, fieldsFor, seconds, createdAt))
      == if "id" in Listed(actor, fieldsFor) then obj.attrs["id"] else actor.id
  {
  }
}
