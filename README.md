# Timeline::Track — the activity recording and fan-out engine

This project models `Timeline::Track` from redis-timeline (`lib/timeline/track.rb`):
the part that turns one tracked event of a host model into an activity record,
stores that record once in the `global_item` hash under its cache key, and pushes
the key to the front of every feed that must show it.

- **Record builder** (`Records`): `options_for` (subject hashes with id, class and
  display name, overridden by the extra fields listed for the subject's type),
  `extra_fields_for` (which reads the extra fields from the host's `@object`,
  whatever subject it is asked about), `set_object`, and `activity` with its
  cache key `"<verb>_u<actor id>_o<object id>_<seconds>"`.
- **Canonical store writer** (`Track.RedisStoreItem`, specified by
  `Track.StoredItems`): with merge-similar on and a previous post, the previous
  post's key is deleted from `global_item`; when its verb and target equal the new
  record's, the new record's object becomes `[previous, current].flatten.uniq`
  (`Merging`).
- **Fan-out dispatcher** (`Track.AddActivity`, specified by `Track.FanOutLists`):
  the global feed, the actor's `:activity` and `:posts` lists, one `:mentions`
  push per resolved mention, then the recipients' `:activity` lists. The follower
  ids win when any of them is truthy. Otherwise the follower objects are used when
  they form a non-empty array.
- **Mention extractor** (`Mentions`): `scan(/@\w+/)` as a leftmost, greedy,
  non-overlapping scan, handles stripped of `@`, resolved through
  `find_by_username`.
- **Key-value store** (`KeyValue`): a `Store` class with the `global_item` hash
  and the named lists, and `HSET`, `HDEL` and `LPUSH` as methods. `Push` and
  `PushAll` are their specifications.

Ruby values are the `Value` datatype. Ids enter list names through `to_s`, so two
ids that render alike name the same list. All counts about lists are stated over
rendered ids (`Track.CountIds`).

Where the code departs from the engine's documented design, the model follows the
code:

- With merge-similar on, the `hdel` of the previous post (line 146) sits outside
  the similarity test, so a dissimilar previous post is deleted too. See
  `Track.PreviousDeletedEvenWhenDissimilar` and
  `Track.DissimilarNextPostDeletesFirst`.
- The follower ids are used when `any?` holds, meaning some id is neither `nil`
  nor `false`. They are not used merely because the list is non-empty. See
  `Track.FalsyIdsIgnored`.
- The actor's own `:activity` list gets one push for being the actor, plus one
  more for each recipient id naming the actor. See `Track.FanOutActivity`.
- An extra field named `id` listed for the actor's type replaces the actor id in
  the record. The list names then follow that value. See
  `Track.ActorIdOfActivity`.

## Model

| member | source | states |
|---|---|---|
| Values.NatToS | lib/timeline/track.rb:57 | the rendering of the seconds is non-empty decimal digits without a leading zero |
| Values.ParseNatToS | lib/timeline/track.rb:57 | reading the decimal rendering back gives the number |
| Values.IntToS | lib/timeline/track.rb:57 | an integer renders as digits, led by `-` exactly when it is negative; a non-negative one reads back as itself |
| Values.ToS | lib/timeline/track.rb:84 | interpolation renders nil as empty, a string as itself, and an integer as its signed decimal digits that read back as the id |
| Values.IntToSInjective | lib/timeline/track.rb:83-89 | distinct integer ids render differently, so they never share a list name |
| Records.Capture | lib/timeline/track.rb:114-117 | the fold adds exactly the listed fields, each holding the value read from the host object, and keeps every other key |
| Records.OptionsFor | lib/timeline/track.rb:120-130 | no subject gives nil; otherwise the keys are id, class, display_name and the listed fields; listed fields carry the host's values and the three base values survive unless overridden |
| Records.SetObject | lib/timeline/track.rb:152-162 | a symbol makes the object what the host's accessor returns; a field list keeps the host as object and registers exactly those fields under the host's type, leaving other types' lists alone; anything else keeps the host and the registrations |
| Records.ExtraFieldsFor | lib/timeline/track.rb:112-118 | the extra fields are exactly those listed for the subject's type, each read from the host object, not from the subject |
| Records.CacheKey | lib/timeline/track.rb:57 | the key starts with the verb and the seconds can be read back from its end |
| Records.Activity | lib/timeline/track.rb:55-64 | the record's cache key is built from verb, actor id, object id and seconds; the verb is kept; actor, object and target are the `options_for` hashes of actor, object and target (the object as a single hash, the target nil when there is none); created_at is the second clock reading |
| Records.KeySecondsRoundTrip | lib/timeline/track.rb:57 | the seconds can be read back from the end of any cache key |
| Records.KeysDifferAcrossSeconds | lib/timeline/track.rb:57 | the same verb, actor and object give equal keys exactly when built in the same second |
| Records.FieldListReadsHost | lib/timeline/track.rb:152-162 | a field list makes the host the object and registers the fields under the host's type; another subject of that type then carries the host's values for them |
| Mentions.WordRun | lib/timeline/track.rb:101 | the greedy `\w+` consumes a maximal run of word characters |
| Mentions.Scan | lib/timeline/track.rb:101 | every match is `@` followed by one or more word characters |
| Mentions.ScanConcat | lib/timeline/track.rb:101 | scanning a text split before a non-word character scans the parts separately |
| Mentions.ScanOneMention | lib/timeline/track.rb:101 | `@word` is one match |
| Mentions.ScanWithoutAt | lib/timeline/track.rb:101 | a text without `@` yields no match |
| Mentions.ScanAround | lib/timeline/track.rb:101 | plain text, then `@word`, then a non-word character gives that match followed by the matches of the rest |
| Mentions.Handles | lib/timeline/track.rb:101-102 | one handle per match, in order: the match without its `@`, a non-empty word |
| Mentions.Resolve | lib/timeline/track.rb:102-104 | at most one id per handle, each the id of a user found by handle |
| Mentions.ResolveAppend | lib/timeline/track.rb:101-105 | resolution goes handle by handle, in text order |
| Mentions.ResolveUnknown | lib/timeline/track.rb:102 | handles that find nobody yield no id |
| Mentions.ThreeMentions | lib/timeline/track.rb:99-106 | text shaped like "hello @alice and @bob, cc @alice" gives the handles alice, bob, alice; known users give their ids in that order, and an unknown one is skipped |
| Merging.UniqFrom | lib/timeline/track.rb:143 | `uniq` never grows the list and never keeps an element already seen |
| Merging.Flatten | lib/timeline/track.rb:143 | `flatten` turns a single hash into a one-element array and leaves an array of hashes as it is |
| Merging.UniqFromElements | lib/timeline/track.rb:143 | `uniq` keeps exactly the elements not yet seen |
| Merging.UniqFromNoDup | lib/timeline/track.rb:143 | `uniq` leaves no duplicates |
| Merging.UniqFromAppend | lib/timeline/track.rb:143 | `uniq` of a concatenation runs over the second part with the first already seen |
| Merging.UniqIsFirstOccurrences | lib/timeline/track.rb:143 | `uniq` equals the reference definition: first occurrences in order |
| Merging.UniqFromOfNoDup | lib/timeline/track.rb:143 | `uniq` of a list without repeats is that list |
| Merging.MergeObjects | lib/timeline/track.rb:143 | the merged object is an array without duplicates holding exactly the hashes of both objects, the previous object's first |
| Merging.MergeKeepsPrevious | lib/timeline/track.rb:143 | a previous object without repeats survives intact at the front |
| Merging.MergeTwoSingles | lib/timeline/track.rb:143 | two different single objects merge to both, the previous one first; an object merged with itself appears once |
| KeyValue.PushAt | lib/timeline/track.rb:133 | `LPUSH` puts the key in front of the named list and changes no other list |
| KeyValue.PushAllAt | lib/timeline/track.rb:132-134 | after a sequence of pushes each list holds one copy of the key per push to it, in front of its old entries: entries are only added |
| KeyValue.PushAllElsewhere | lib/timeline/track.rb:132-134 | a list no push names is untouched |
| KeyValue.PushAllAppend | lib/timeline/track.rb:132-134 | pushing to two sequences of lists one after the other is pushing to their concatenation |
| KeyValue.Store.HSet | lib/timeline/track.rb:149 | the key now maps to the record, nothing else changes |
| KeyValue.Store.HDel | lib/timeline/track.rb:146 | the key is gone, nothing else changes |
| KeyValue.Store.LPush | lib/timeline/track.rb:133 | the lists become `Push` of the old lists, the hash is unchanged |
| Track.MergeFlag | lib/timeline/track.rb:42 | merge-similar is on for the literal `true` only; nil, false, strings and numbers leave it off |
| Track.Recipients | lib/timeline/track.rb:72-76 | the follower ids when one of them is truthy; otherwise the follower objects' ids when they form an array; otherwise nobody |
| Track.MentionText | lib/timeline/track.rb:100 | there is text to scan exactly when a mentionable field is named and reads truthy; the text is that field's string |
| Track.MentionedIds | lib/timeline/track.rb:100-104 | no ids without mentionable text; at most one id per `@word` match; every id is one `find_by_username` returned |
| Track.FanOutOrder | lib/timeline/track.rb:66-77 | the push order: the global feed, the actor's activity list, the actor's posts list, each mentioned user's mentions list in text order, then each recipient's activity list |
| Track.Similar | lib/timeline/track.rb:142 | a different verb or a different target is never similar; records differing only in object, key, actor and time are |
| Track.UserListInjective | lib/timeline/track.rb:83-89 | two user lists coincide exactly when the ids render alike and the feed is the same |
| Track.GlobalIsNoUserList | lib/timeline/track.rb:79-89 | the global feed is never a user's list |
| Track.CountUserLists | lib/timeline/track.rb:91-97 | among the activity lists of some ids, a user's list occurs once per id naming the user, and another feed's list never |
| Track.Merged | lib/timeline/track.rb:141-144 | the written record differs from the built one only in its object, which is the merge exactly when merge is on and the previous post is similar |
| Track.StoredItems | lib/timeline/track.rb:136-150 | after the write the record is under its key; with merge on the previous key is gone; every other entry is unchanged |
| Track.RedisAdd | lib/timeline/track.rb:132-134 | pushes the record's cache key to the front of the list, the hash unchanged |
| Track.AddActivityByGlobal | lib/timeline/track.rb:79-81 | one push to `global:activity` |
| Track.AddActivityByUser | lib/timeline/track.rb:83-85 | one push to `user:id:<id>:posts` |
| Track.AddActivityToUser | lib/timeline/track.rb:87-89 | one push to `user:id:<id>:activity` |
| Track.AddMentionToUser | lib/timeline/track.rb:108-110 | one push to `user:id:<id>:mentions` |
| Track.AddActivityToFollowers | lib/timeline/track.rb:91-93 | one push to each follower's activity list, in array order |
| Track.AddActivityToFollowerIds | lib/timeline/track.rb:95-97 | one push to each id's activity list, in order |
| Track.AddMentions | lib/timeline/track.rb:99-106 | one push to the mentions list of each resolved mention, in text order; none without mentionable text |
| Track.RedisStoreItem | lib/timeline/track.rb:136-150 | returns the merged record; the hash becomes `StoredItems`; the lists are unchanged |
| Track.AddActivity | lib/timeline/track.rb:66-77 | the hash becomes `StoredItems` (merge only for the literal `true`), the record's key is present, and the lists receive exactly the pushes of `FanOutLists` in order |
| Track.CountFanOutGlobal | lib/timeline/track.rb:66-77 | the global feed is pushed to exactly once |
| Track.CountFanOutUser | lib/timeline/track.rb:66-77 | how often each user list is pushed to: the actor's activity and posts once, mentions per resolved mention, activity per recipient id |
| Track.FanOutGlobal | lib/timeline/track.rb:68 | the global feed gains exactly the new key at its front |
| Track.FanOutPosts | lib/timeline/track.rb:70 | only the actor's posts list gains the key, once, at its front, where the next merge check reads it |
| Track.FanOutActivity | lib/timeline/track.rb:69-76 | a user's activity list gains the key once for being the actor plus once per recipient id naming the user, all in front of its old entries |
| Track.FanOutMentions | lib/timeline/track.rb:71 | a user's mentions list gains the key once per mention resolving to the user |
| Track.OnlyFeedListsChange | lib/timeline/track.rb:66-77 | no list except the global feed and user feeds changes |
| Track.FollowerIdsWin | lib/timeline/track.rb:72-76 | with a truthy follower id the recipients are the ids and the follower objects do not affect the fan-out |
| Track.FalsyIdsIgnored | lib/timeline/track.rb:72-75 | ids that are all nil or false act as no ids: the follower objects decide |
| Track.NoRecipientsNoTimeline | lib/timeline/track.rb:72-76 | with neither truthy ids nor a non-empty follower array, no activity list but the actor's changes |
| Track.NoMentionWrites | lib/timeline/track.rb:100 | without a mentionable field, or with one reading nil or false, no mentions list changes |
| Track.MentionedIdsOfThree | lib/timeline/track.rb:99-104 | for text shaped like "hello @alice and @bob, cc @alice" the mentioned ids are alice, bob, alice |
| Track.RepeatedMention | lib/timeline/track.rb:99-106 | for that text alice's mentions list gains the key twice and bob's once |
| Track.PlainWrite | lib/timeline/track.rb:136-149 | a merge option other than the literal `true` (line 42) is a plain overwrite of the record's own key |
| Track.PlainWriteIdempotent | lib/timeline/track.rb:149 | writing the same record twice without merge equals one write |
| Track.MergeOnMatch | lib/timeline/track.rb:137-149 | a similar previous post: the stored object holds every hash of both once, the rest of the record is the new one, the previous key is gone |
| Track.PreviousDeletedEvenWhenDissimilar | lib/timeline/track.rb:140-149 | with merge on, a dissimilar previous post's key is deleted too and the new record is stored as built |
| Track.LikeThenLikeCollapses | lib/timeline/track.rb:136-150 | two consecutive posts with equal verb and target and objects O1, O2: only the second key remains, with object [O1, O2] and the common target |
| Track.DissimilarNextPostDeletesFirst | lib/timeline/track.rb:136-150 | two consecutive posts with different verbs: the first record is gone, the second is stored as built |
| Track.ActorIdOfActivity | lib/timeline/track.rb:55-70 | the id the actor's lists are named after is the actor's id, unless an extra field `id` is listed for the actor's type, in which case it is that field of the object |

## Left out

- The registration layer (`track`, `define_activity_method` and the callback hook, lines 6–52) is not modelled. `Track.Invocation` carries the values it resolves. Only `options[:merge_similar] == true` from line 42 is modelled, as `Track.MergeFlag`.
- The Redis client, `Timeline.get_list`, `Timeline.encode`/`decode` and `Timeline::Activity.new` are foreign code. The hash stores `Record` values as if `decode(encode(r)) == r`.
- Track.RedisStoreItem: the previous post is a parameter, assumed to be the record stored under the first key of the actor's `:posts` list. The model does not perform the list read of line 139.
- `Time.now` becomes two parameters: `seconds` for the cache key and `createdAt` for the second reading.
- `find_by_username` is a map from handle to user id.
- Concurrency and the read-then-write race of the merge path are left out. Calls are sequential and each store operation is atomic.
- `String#downcase` is modelled on ASCII letters only. Unicode case mapping of class names is not modelled. (`\w` is ASCII in Ruby, as modelled.)
- `send` of a missing attribute, and `scan` on a value that is neither text, nil nor false, both raise `NoMethodError`. These are preconditions (`Records.Buildable`, `Track.MentionableReadable`), not error results.
- Ruby hash equality of targets after a decode (string versus symbol keys) is not modelled. Targets are compared as equal values.
- `@followers` that are not an array, and follower objects that are `nil`, are not modelled beyond "not an array". Follower objects are always truthy.
