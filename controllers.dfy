/**
 * The request handlers of the service's controller module, over one document
 * store of user records.
 *
 * Each handler is one atomic step on the store: the store's match-and-update
 * (`findOneAndUpdate`) is a single map update here. Answers of the OAuth service
 * and of the video API are inputs of the handlers (`Fetched` values), so every
 * branch the handlers take on them, including the call that throws, is visible.
 * The source's quirks are kept: `$push` appends duplicates, `getVideo` writes
 * under the key `"uploads" + id`, and a guard that matches no record ends in a
 * 500 reply because the handler destructures the `null` it gets back.
 */
module Controllers {
  import opened Wrappers

  type Id = string

  /** A resource of the video API (a playlist item or a video). Only its `id`
      is ever inspected; everything else it carries is `detail`. */
  datatype Item = Item(id: Id, detail: string)

  /** One channel of the channel listing: its own id (possibly unset), the id of
      its "uploads" playlist and its reported video count. */
  datatype Channel = Channel(id: Option<Id>, uploadsPlaylist: Id, videoCount: int)

  /** The channel listing: its `items` and its `pageInfo.totalResults`. */
  datatype ChannelList = ChannelList(items: seq<Channel>, totalResults: int)

  /** What a call into an external service gave back: a value, or the error it threw. */
  datatype Fetched<T> = Fetched(value: T) | Threw(message: string)

  /** The provider's access grant, an opaque token bundle. */
  datatype Grant = Grant(bundle: string)

  /** The claims the session credential carries: the grant and the user's id. */
  datatype Session = Session(ytAccess: Grant, id: Id)

  /** What a successful code exchange and identity check yield. */
  datatype Login = Login(sub: Id, picture: string, name: string, token: Grant)

  /** One user document. `stray` holds top-level fields the handlers write
      outside the declared ones (the `"uploads" + id` key of `getVideo`). */
  datatype UserRecord = UserRecord(
    id: Id,
    profile: string,
    name: string,
    access: Grant,
    channel: Option<Channel>,
    uploads: map<Id, Item>,
    uploadListId: Option<Id>,
    saved: seq<Id>,
    stray: map<string, Option<Item>>)

  const NO_CHANNEL_MSG: string := "This User has no channel"
  const SAVED_MSG: string := "Video saved to list"
  const REMOVED_MSG: string := "Video removed from list"

  /** Reply of the OAuth callback. `session` is the payload that is signed into
      the session credential. */
  datatype LoginReply =
    | LoginRefused(error: string)
    | LoggedIn(name: string, profile: string, channel: Option<Channel>,
               uploads: map<Id, Item>, session: Session)
    | LoginFailed(message: string)
  {
    function Status(): int
    {
      match this
      case LoginRefused(_) => 406
      case LoggedIn(_, _, _, _, _) => 200
      case LoginFailed(_) => 500
    }
  }

  /** Reply of `getChannel`: the stored snapshot, the rebuilt one (uploads as a
      list), the soft "no channel" failure, or a 500. */
  datatype ChannelReply =
    | Stored(channel: Channel, uploads: map<Id, Item>, saved: seq<Id>)
    | Synced(channel: Channel, uploadList: seq<Option<Item>>)
    | NoChannel(msg: string)
    | ChannelError
  {
    function Status(): int
    {
      if ChannelError? then 500 else 200
    }
  }

  /** Reply of `saveToList` and `removeFromList`. */
  datatype ListReply = ListUpdated(msg: string, saveList: seq<Id>, video: Item) | ListError
  {
    function Status(): int
    {
      if ListError? then 500 else 200
    }
  }

  /** Reply of `getSaved`; its empty catch block sends nothing at all. */
  datatype SavedReply = SavedList(savedVideos: seq<Option<Item>>) | SavedNoResponse

  /** Reply of `getVideo`. */
  datatype VideoReply = VideoShown(video: Option<Item>, isSaved: bool) | VideoError
  {
    function Status(): int
    {
      if VideoError? then 500 else 200
    }
  }

  /** SNAPSHOT_PRESENT: the stored channel has a (truthy) id. */
  predicate SnapshotPresent(r: UserRecord)
  {
    r.channel.Some? && Truthy(r.channel.value.id)
  }

  /** SNAPSHOT_ABSENT: a channel object is stored but its id is unset or empty. */
  predicate SnapshotAbsent(r: UserRecord)
  {
    r.channel.Some? && !Truthy(r.channel.value.id)
  }

  /** The match of `saveToList`/`removeFromList`: the user's record has an
      uploads entry under `videoId` whose own `id` is `videoId`. */
  predicate HasUpload(records: map<Id, UserRecord>, uid: Id, videoId: Id)
  {
    uid in records && videoId in records[uid].uploads && records[uid].uploads[videoId].id == videoId
  }

  /** Every saved id names an entry of the uploads map. */
  predicate SavedKnown(r: UserRecord)
  {
    forall v :: v in r.saved ==> v in r.uploads
  }

  /** Every uploads entry is filed under its own id. */
  predicate SelfKeyed(uploads: map<Id, Item>)
  {
    forall k :: k in uploads ==> uploads[k].id == k
  }

  predicate Distinct(s: seq<Id>)
  {
    forall i, j :: 0 <= i < j < |s| ==> s[i] != s[j]
  }

  /** The record the login upsert leaves: `id`, `profile`, `name` and `access`
      set, everything else kept, or taken from the schema's defaults when the
      record is new. */
  function Upserted(records: map<Id, UserRecord>, login: Login, channelDefault: Option<Channel>): UserRecord
  {
    if login.sub in records then
      records[login.sub].(id := login.sub, profile := login.picture, name := login.name, access := login.token)
    else
      UserRecord(login.sub, login.picture, login.name, login.token, channelDefault, map[], None, [], map[])
  }

  // ---------------------------------------------------------------------------
  // The uploads map built from playlist items, and the key order it records
  // ---------------------------------------------------------------------------

  /** The `uploads` object the playlist loop fills: every item written under its
      own id, a later item overwriting an earlier one with the same id. */
  function UploadsOf(items: seq<Item>): map<Id, Item>
  {
    if items == [] then map[]
    else
      var last := items[|items| - 1];
      UploadsOf(items[..|items| - 1])[last.id := last]
  }

  /** The order in which that loop first inserts each key, which is the order in
      which `Object.keys` reports them. */
  function KeyOrder(items: seq<Item>): seq<Id>
  {
    if items == [] then []
    else
      var prior := KeyOrder(items[..|items| - 1]);
      var last := items[|items| - 1];
      if last.id in prior then prior else prior + [last.id]
  }

  /** `keys.map(id => uploads[id])`: each key looked up in order, a missing key
      giving `undefined`. */
  function Project(keys: seq<Id>, uploads: map<Id, Item>): (r: seq<Option<Item>>)
    ensures |r| == |keys|
    ensures forall i :: 0 <= i < |keys| ==> r[i] == Lookup(uploads, keys[i])
  {
    if keys == [] then []
    else [Lookup(uploads, keys[0])] + Project(keys[1..], uploads)
  }

  /** The `forEach` loop that fills `uploadsObject`, with the key order it
      produces made explicit. */
  method BuildUploads(items: seq<Item>) returns (uploads: map<Id, Item>, order: seq<Id>)
    ensures uploads == UploadsOf(items)
    ensures order == KeyOrder(items)
  {
    uploads, order := map[], [];
    var i := 0;
    while i < |items|
      invariant 0 <= i <= |items|
      invariant uploads == UploadsOf(items[..i])
      invariant order == KeyOrder(items[..i])
    {
      var item := items[i];
      KeyOrderCovers(items[..i]);
      assert items[..i + 1][..i] == items[..i];
      if item.id !in uploads {
        order := order + [item.id];
      }
      uploads := uploads[item.id := item];
      i := i + 1;
    }
    assert items[..|items|] == items;
  }

  /** The keys of the uploads map are exactly the ids of the items. */
  lemma {:induction false} UploadsKeys(items: seq<Item>)
    ensures UploadsOf(items).Keys == set i | 0 <= i < |items| :: items[i].id
  {
    if items != [] {
      var prefix := items[..|items| - 1];
      UploadsKeys(prefix);
      var all := set i | 0 <= i < |items| :: items[i].id;
      var before := set i | 0 <= i < |prefix| :: prefix[i].id;
      assert all == before + {items[|items| - 1].id} by {
        forall k | k in all ensures k in before + {items[|items| - 1].id} {
          var i :| 0 <= i < |items| && items[i].id == k;
          if i < |prefix| {
            assert prefix[i].id == k;
          }
        }
        forall k | k in before ensures k in all {
          var i :| 0 <= i < |prefix| && prefix[i].id == k;
          assert items[i].id == k;
        }
        assert items[|items| - 1].id in all;
      }
    }
  }

  /** Each key maps to the LAST item that carries that id. */
  lemma {:induction false} UploadsLastWins(items: seq<Item>, k: Id) returns (j: nat)
    requires k in UploadsOf(items)
    ensures j < |items| && items[j].id == k
    ensures UploadsOf(items)[k] == items[j]
    ensures forall j' :: j < j' < |items| ==> items[j'].id != k
  {
    var prefix := items[..|items| - 1];
    var last := items[|items| - 1];
    if last.id == k {
      j := |items| - 1;
    } else {
      j := UploadsLastWins(prefix, k);
      assert items[j] == prefix[j];
    }
  }

  /** Every entry of a rebuilt uploads map is filed under its own id, so for a
      rebuilt record the save/remove match is plain key membership. */
  lemma {:induction false} UploadsSelfKeyed(items: seq<Item>)
    ensures SelfKeyed(UploadsOf(items))
  {
    if items != [] {
      UploadsSelfKeyed(items[..|items| - 1]);
    }
  }

  /** The key order lists exactly the keys of the uploads map ... */
  lemma {:induction false} KeyOrderCovers(items: seq<Item>)
    ensures forall k :: k in KeyOrder(items) <==> k in UploadsOf(items)
  {
    if items != [] {
      KeyOrderCovers(items[..|items| - 1]);
    }
  }

  /** ... each of them once. */
  lemma {:induction false} KeyOrderDistinct(items: seq<Item>)
    ensures Distinct(KeyOrder(items))
  {
    if items != [] {
      KeyOrderDistinct(items[..|items| - 1]);
    }
  }

  lemma {:induction false} DistinctCard(s: seq<Id>)
    requires Distinct(s)
    ensures |set x | x in s| == |s|
  {
    if s != [] {
      DistinctCard(s[1..]);
      assert (set x | x in s) == {s[0]} + (set x | x in s[1..]);
      assert s[0] !in s[1..];
    }
  }

  /** The uploads list a rebuild returns holds one present entry per key of the
      stored map, each key's entry once, and nothing else. */
  lemma SyncedListing(items: seq<Item>)
    ensures var u := UploadsOf(items); var r := Project(KeyOrder(items), u);
      && |r| == |u|
      && (forall i :: 0 <= i < |r| ==> r[i].Some? && r[i].value.id in u && u[r[i].value.id] == r[i].value)
      && (forall i, j :: 0 <= i < j < |r| ==> r[i] != r[j])
      && (forall k :: k in u ==> Some(u[k]) in r)
  {
    var u := UploadsOf(items);
    var order := KeyOrder(items);
    var r := Project(order, u);
    KeyOrderCovers(items);
    KeyOrderDistinct(items);
    UploadsSelfKeyed(items);
    ListedOnce(order, u);
    assert |r| == |u| by {
      DistinctCard(order);
      assert (set x | x in order) == u.Keys;
    }
  }

  /** Projecting distinct keys of a self-keyed map lists each key's entry once. */
  lemma ListedOnce(order: seq<Id>, u: map<Id, Item>)
    requires Distinct(order) && SelfKeyed(u)
    requires forall k :: k in order <==> k in u
    ensures var r := Project(order, u);
      && (forall i :: 0 <= i < |r| ==> r[i].Some? && r[i].value.id in u && u[r[i].value.id] == r[i].value)
      && (forall i, j :: 0 <= i < j < |r| ==> r[i] != r[j])
      && (forall k :: k in u ==> Some(u[k]) in r)
  {
    var r := Project(order, u);
    forall i | 0 <= i < |r| ensures r[i] == Some(u[order[i]]) && r[i].value.id == order[i] {
      assert order[i] in order;
    }
    forall k | k in u ensures Some(u[k]) in r {
      var i :| 0 <= i < |order| && order[i] == k;
      assert r[i] == Some(u[k]);
    }
  }

  // ---------------------------------------------------------------------------
  // The saved list: `$pull` and the projection through uploads
  // ---------------------------------------------------------------------------

  /** `$pull`: every occurrence of `v` removed from `s`. */
  function Pull(s: seq<Id>, v: Id): (r: seq<Id>)
    ensures forall x :: x in r <==> x in s && x != v
  {
    if s == [] then []
    else if s[0] == v then Pull(s[1..], v)
    else [s[0]] + Pull(s[1..], v)
  }

  /** `$pull` drops exactly the copies of `v` and keeps every other id as often
      as it occurred. */
  lemma {:induction false} PullCounts(s: seq<Id>, v: Id)
    ensures forall x :: x != v ==> multiset(Pull(s, v))[x] == multiset(s)[x]
    ensures multiset(Pull(s, v))[v] == 0
    ensures |Pull(s, v)| == |s| - multiset(s)[v]
  {
    if s != [] {
      PullCounts(s[1..], v);
      assert s == [s[0]] + s[1..];
    }
  }

  /** `r` is `s` read at the increasing positions `at`, and every position of
      `s` that does not hold `v` is read. */
  predicate ReadInOrder(at: seq<nat>, s: seq<Id>, r: seq<Id>, v: Id)
  {
    && |at| == |r|
    && (forall i :: 0 <= i < |at| ==> at[i] < |s| && r[i] == s[at[i]])
    && (forall i, j :: 0 <= i < j < |at| ==> at[i] < at[j])
    && (forall j :: 0 <= j < |s| && s[j] != v ==> j in at)
  }

  /** `$pull` keeps the other elements in their original order. */
  lemma {:induction false} PullKeepsOrder(s: seq<Id>, v: Id) returns (at: seq<nat>)
    ensures ReadInOrder(at, s, Pull(s, v), v)
  {
    if s == [] {
      return [];
    }
    var rest := PullKeepsOrder(s[1..], v);
    var shifted := ShiftedReads(s, v, rest);
    if s[0] == v {
      at := shifted;
      assert Pull(s, v) == Pull(s[1..], v);
    } else {
      at := KeepHead(s, v, shifted);
    }
  }

  /** When `s[0]` is kept, position 0 comes first. */
  lemma KeepHead(s: seq<Id>, v: Id, shifted: seq<nat>) returns (at: seq<nat>)
    requires s != [] && s[0] != v
    requires |shifted| == |Pull(s[1..], v)|
    requires forall i :: 0 <= i < |shifted| ==> 1 <= shifted[i] < |s| && Pull(s[1..], v)[i] == s[shifted[i]]
    requires forall i, j :: 0 <= i < j < |shifted| ==> shifted[i] < shifted[j]
    requires forall j :: 1 <= j < |s| && s[j] != v ==> j in shifted
    ensures ReadInOrder(at, s, Pull(s, v), v)
  {
    at := [0] + shifted;
    HeadRead(s, Pull(s[1..], v), shifted);
    HeadFirst(shifted);
    HeadCovered(s, v, shifted);
    assert Pull(s, v) == [s[0]] + Pull(s[1..], v);
  }

  /** Reading `s[0]` first, then the tail's positions, reads `[s[0]] + tail`. */
  lemma HeadRead(s: seq<Id>, tail: seq<Id>, shifted: seq<nat>)
    requires s != [] && |shifted| == |tail|
    requires forall i :: 0 <= i < |shifted| ==> 1 <= shifted[i] < |s| && tail[i] == s[shifted[i]]
    ensures forall i :: 0 <= i < |shifted| + 1 ==> ([0] + shifted)[i] < |s| && ([s[0]] + tail)[i] == s[([0] + shifted)[i]]
  {
    forall i | 0 <= i < |shifted| + 1 ensures ([0] + shifted)[i] < |s| && ([s[0]] + tail)[i] == s[([0] + shifted)[i]] {
      if i > 0 {
        assert ([0] + shifted)[i] == shifted[i - 1];
        assert ([s[0]] + tail)[i] == tail[i - 1];
      }
    }
  }

  /** Position 0 in front of positions from 1 up keeps them increasing. */
  lemma HeadFirst(shifted: seq<nat>)
    requires forall i :: 0 <= i < |shifted| ==> 1 <= shifted[i]
    requires forall i, j :: 0 <= i < j < |shifted| ==> shifted[i] < shifted[j]
    ensures forall i, j :: 0 <= i < j < |shifted| + 1 ==> ([0] + shifted)[i] < ([0] + shifted)[j]
  {
    forall i, j | 0 <= i < j < |shifted| + 1 ensures ([0] + shifted)[i] < ([0] + shifted)[j] {
      assert ([0] + shifted)[j] == shifted[j - 1];
      if i > 0 {
        assert ([0] + shifted)[i] == shifted[i - 1];
      }
    }
  }

  /** With position 0 added, every kept position of `s` is read. */
  lemma HeadCovered(s: seq<Id>, v: Id, shifted: seq<nat>)
    requires s != [] && s[0] != v
    requires forall j :: 1 <= j < |s| && s[j] != v ==> j in shifted
    ensures forall j :: 0 <= j < |s| && s[j] != v ==> j in [0] + shifted
  {
    forall j | 0 <= j < |s| && s[j] != v ensures j in [0] + shifted {
      if j > 0 {
        var i :| 0 <= i < |shifted| && shifted[i] == j;
        assert ([0] + shifted)[i + 1] == j;
      }
    }
  }

  /** The positions of the tail's embedding, shifted to positions of `s`. */
  lemma ShiftedReads(s: seq<Id>, v: Id, rest: seq<nat>) returns (shifted: seq<nat>)
    requires s != [] && ReadInOrder(rest, s[1..], Pull(s[1..], v), v)
    ensures |shifted| == |Pull(s[1..], v)|
    ensures forall i :: 0 <= i < |shifted| ==> 1 <= shifted[i] < |s| && Pull(s[1..], v)[i] == s[shifted[i]]
    ensures forall i, j :: 0 <= i < j < |shifted| ==> shifted[i] < shifted[j]
    ensures forall j :: 1 <= j < |s| && s[j] != v ==> j in shifted
  {
    var tail := s[1..];
    shifted := ShiftUp(rest);
    forall i | 0 <= i < |shifted| ensures 1 <= shifted[i] < |s| && Pull(tail, v)[i] == s[shifted[i]] {
      assert tail[rest[i]] == s[rest[i] + 1];
    }
    forall j | 1 <= j < |s| && s[j] != v ensures j in shifted {
      assert tail[j - 1] == s[j];
      var i :| 0 <= i < |rest| && rest[i] == j - 1;
      assert shifted[i] == j;
    }
  }

  /** Every position moved one place up. */
  function ShiftUp(at: seq<nat>): (r: seq<nat>)
    ensures |r| == |at|
    ensures forall i :: 0 <= i < |at| ==> r[i] == at[i] + 1
  {
    if at == [] then [] else [at[0] + 1] + ShiftUp(at[1..])
  }

  /** Removing an id that is not saved leaves the list as it was. */
  lemma {:induction false} PullAbsent(s: seq<Id>, v: Id)
    requires v !in s
    ensures Pull(s, v) == s
  {
    if s != [] {
      PullAbsent(s[1..], v);
    }
  }

  lemma {:induction false} PullAppend(a: seq<Id>, b: seq<Id>, v: Id)
    ensures Pull(a + b, v) == Pull(a, v) + Pull(b, v)
  {
    if a == [] {
      assert a + b == b;
    } else {
      assert (a + b)[1..] == a[1..] + b;
      PullAppend(a[1..], b, v);
    }
  }

  /** A remove after a save takes out every copy the save and earlier saves made. */
  lemma SaveThenRemove(s: seq<Id>, v: Id)
    ensures Pull(s + [v], v) == Pull(s, v)
    ensures v !in s ==> Pull(s + [v], v) == s
  {
    PullAppend(s, [v], v);
    assert Pull([v], v) == [];
    if v !in s {
      PullAbsent(s, v);
    }
  }

  /** After a remove, no saved video listed by `getSaved` is the removed one. */
  lemma RemovedNotListed(saved: seq<Id>, uploads: map<Id, Item>, v: Id)
    requires SelfKeyed(uploads)
    ensures var r := Project(Pull(saved, v), uploads);
      forall i :: 0 <= i < |r| && r[i].Some? ==> r[i].value.id != v
  {
    var p := Pull(saved, v);
    forall i | 0 <= i < |p| ensures p[i] != v {
      assert p[i] in p;
    }
  }

  /** After a save, `getSaved` lists what it listed before, then the saved video. */
  lemma SaveThenListed(saved: seq<Id>, uploads: map<Id, Item>, v: Id)
    requires v in uploads
    ensures Project(saved + [v], uploads) == Project(saved, uploads) + [Some(uploads[v])]
  {
    var l := Project(saved + [v], uploads);
    var r := Project(saved, uploads) + [Some(uploads[v])];
    assert |l| == |r|;
    forall i | 0 <= i < |l| ensures l[i] == r[i] {
      assert (saved + [v])[i] == if i < |saved| then saved[i] else v;
    }
  }

  /** A rebuild keeps `saved` while it replaces `uploads`, so a saved id can be
      left naming no upload: the rebuild does not preserve `SavedKnown`. */
  lemma RebuildCanOrphanSaved()
    ensures var r := UserRecord("u", "", "", Grant(""), Some(Channel(None, "P", 0)),
                                map["v" := Item("v", "")], None, ["v"], map[]);
      && SavedKnown(r)
      && !SavedKnown(r.(uploads := UploadsOf([])))
  {
    var r := UserRecord("u", "", "", Grant(""), Some(Channel(None, "P", 0)),
                        map["v" := Item("v", "")], None, ["v"], map[]);
    assert "v" in r.saved;
  }

  // ---------------------------------------------------------------------------
  // The store and its handlers
  // ---------------------------------------------------------------------------

  /** The collection of user records, keyed by each record's `id`. */
  class UserStore {
    var records: map<Id, UserRecord>
    /** The value the schema gives `channel` on a record the login upsert creates. */
    const channelDefault: Option<Channel>
    /** Whether the schema drops update paths it does not declare. */
    const strict: bool

    /** Exactly one record per identity id: the record under key `k` has id
        `k`; and every record's uploads entry is filed under its own id, as the
        rebuild files it. */
    ghost predicate Valid()
      reads this
    {
      forall k :: k in records ==> records[k].id == k && SelfKeyed(records[k].uploads)
    }

    constructor (channelDefault: Option<Channel>, strict: bool)
      ensures Valid() && records == map[]
      ensures this.channelDefault == channelDefault && this.strict == strict
    {
      records := map[];
      this.channelDefault := channelDefault;
      this.strict := strict;
    }

    /** `callbackHandler`: an `error` in the query ends in 406 before any
        exchange or write; a failed exchange ends in 500; otherwise the record
        keyed by the subject id is upserted. */
    method CallbackHandler(error: Option<string>, exchange: Fetched<Login>) returns (reply: LoginReply)
      requires Valid()
      modifies this
      ensures Valid()
      ensures Truthy(error) ==> reply == LoginRefused(error.value) && records == old(records)
      ensures !Truthy(error) && exchange.Threw? ==>
        reply == LoginFailed(exchange.message) && records == old(records)
      ensures !Truthy(error) && exchange.Fetched? ==>
        var user := Upserted(old(records), exchange.value, channelDefault);
        && records == old(records)[exchange.value.sub := user]
        && reply == LoggedIn(user.name, user.profile, user.channel, user.uploads, Session(user.access, user.id))
    {
      if Truthy(error) {
        return LoginRefused(error.value);
      }
      if exchange.Threw? {
        return LoginFailed(exchange.message);
      }
      var login := exchange.value;
      var user := Upserted(records, login, channelDefault);
      records := records[login.sub := user];
      reply := LoggedIn(user.name, user.profile, user.channel, user.uploads, Session(user.access, user.id));
    }

    /** `getChannel`: the stored snapshot when the channel id is set; otherwise
        a rebuild from the provider's channel listing and playlist items. */
    method GetChannel(uid: Id, channels: Fetched<ChannelList>, playlist: Fetched<seq<Item>>)
      returns (reply: ChannelReply)
      requires Valid()
      modifies this
      ensures Valid()
      // no record, or a null channel: the handler throws
      ensures uid !in old(records) || old(records)[uid].channel.None? ==>
        reply == ChannelError && records == old(records)
      // SNAPSHOT_PRESENT: the stored snapshot, no write
      ensures uid in old(records) && SnapshotPresent(old(records)[uid]) ==>
        var r := old(records)[uid];
        reply == Stored(r.channel.value, r.uploads, r.saved) && records == old(records)
      // SNAPSHOT_ABSENT
      ensures uid in old(records) && SnapshotAbsent(old(records)[uid]) ==>
        var r := old(records)[uid];
        match channels
        case Threw(_) => reply == ChannelError && records == old(records)
        case Fetched(list) =>
          if |list.items| == 0 then
            reply == ChannelError && records == old(records)
          else if list.totalResults == 0 then
            reply == NoChannel(NO_CHANNEL_MSG) && records == old(records)
          else
            match playlist
            case Threw(_) => reply == ChannelError && records == old(records)
            case Fetched(items) =>
              var rebuilt := r.(channel := Some(list.items[0]), uploads := UploadsOf(items),
                                uploadListId := Some(list.items[0].uploadsPlaylist));
              && records == old(records)[uid := rebuilt]
              && reply == Synced(list.items[0], Project(KeyOrder(items), UploadsOf(items)))
      // only a rebuild writes, and it touches no other record
      ensures records != old(records) ==> reply.Synced? && records.Keys == old(records).Keys
    {
      if uid !in records || records[uid].channel.None? {
        return ChannelError;
      }
      var r := records[uid];
      var channel := r.channel.value;
      if Truthy(channel.id) {
        return Stored(channel, r.uploads, r.saved);
      }
      if channels.Threw? {
        return ChannelError;
      }
      var list := channels.value;
      if |list.items| == 0 {
        // `items[0]` is undefined and reading its `contentDetails` throws
        return ChannelError;
      }
      var channelData := list.items[0];
      var playlistId := channelData.uploadsPlaylist;
      if list.totalResults == 0 {
        return NoChannel(NO_CHANNEL_MSG);
      }
      if playlist.Threw? {
        return ChannelError;
      }
      var uploads, order := BuildUploads(playlist.value);
      UploadsSelfKeyed(playlist.value);
      records := records[uid := r.(channel := Some(channelData), uploads := uploads, uploadListId := Some(playlistId))];
      var stored := records[uid];
      reply := Synced(stored.channel.value, Project(order, stored.uploads));
    }

    /** `getSaved`: the saved ids projected through uploads, in order; a missing
        record makes it throw into an empty catch, so nothing is sent. */
    method GetSaved(uid: Id) returns (reply: SavedReply)
      requires Valid()
      ensures uid !in records ==> reply == SavedNoResponse
      ensures uid in records ==> reply.SavedList? && |reply.savedVideos| == |records[uid].saved|
      ensures uid in records ==> forall i :: 0 <= i < |records[uid].saved| ==>
        var v := records[uid].saved[i];
        reply.savedVideos[i] == if v in records[uid].uploads then Some(records[uid].uploads[v]) else None
    {
      if uid !in records {
        return SavedNoResponse;
      }
      var r := records[uid];
      reply := SavedList(Project(r.saved, r.uploads));
    }

    /** `getVideo`: the first video of the provider's answer, stored under the
        top-level key `"uploads" + uid` (never inside `uploads`), and whether
        `videoId` is saved. */
    method GetVideo(uid: Id, videoId: Id, videos: Fetched<seq<Item>>) returns (reply: VideoReply)
      requires Valid()
      modifies this
      ensures Valid()
      ensures videos.Threw? || uid !in old(records) ==> reply == VideoError && records == old(records)
      ensures videos.Fetched? && uid in old(records) ==>
        var r := old(records)[uid];
        var details := if |videos.value| == 0 then None else Some(videos.value[0]);
        && reply == VideoShown(details, videoId in r.saved)
        && records == if strict then old(records)
                      else old(records)[uid := r.(stray := r.stray["uploads" + uid := details])]
      ensures records.Keys == old(records).Keys
      ensures forall k :: k in records ==>
        records[k].uploads == old(records)[k].uploads && records[k].saved == old(records)[k].saved
    {
      if videos.Threw? {
        return VideoError;
      }
      var details := if |videos.value| == 0 then None else Some(videos.value[0]);
      if uid !in records {
        return VideoError;
      }
      var r := records[uid];
      if !strict {
        records := records[uid := r.(stray := r.stray["uploads" + uid := details])];
      }
      reply := VideoShown(details, videoId in records[uid].saved);
    }

    /** `refreshList`: the `findOne` it destructures is never awaited, so
        `uploadListId` is undefined, the rebuild is skipped, and the handler
        ends without a reply and without a write. */
    method RefreshList(uid: Id) returns (responded: bool)
      ensures !responded
    {
      responded := false;
    }

    /** `saveToList`: `$push` of `videoId` onto `saved` on the record that has
        `videoId` among its uploads; a miss writes nothing and ends in 500. */
    method SaveToList(uid: Id, videoId: Id) returns (reply: ListReply)
      requires Valid()
      modifies this
      ensures Valid()
      ensures HasUpload(old(records), uid, videoId) ==>
        var r := old(records)[uid];
        && records == old(records)[uid := r.(saved := r.saved + [videoId])]
        && reply == ListUpdated(SAVED_MSG, r.saved + [videoId], r.uploads[videoId])
        && |records[uid].saved| == |r.saved| + 1
      ensures !HasUpload(old(records), uid, videoId) ==> reply == ListError && records == old(records)
      ensures uid in old(records) && SavedKnown(old(records)[uid]) ==> SavedKnown(records[uid])
    {
      if !HasUpload(records, uid, videoId) {
        return ListError;
      }
      var r := records[uid];
      records := records[uid := r.(saved := r.saved + [videoId])];
      var updated := records[uid];
      reply := ListUpdated(SAVED_MSG, updated.saved, updated.uploads[videoId]);
    }

    /** `removeFromList`: `$pull` of `videoId` from `saved` under the same
        match; a miss writes nothing and ends in 500. */
    method RemoveFromList(uid: Id, videoId: Id) returns (reply: ListReply)
      requires Valid()
      modifies this
      ensures Valid()
      ensures HasUpload(old(records), uid, videoId) ==>
        var r := old(records)[uid];
        && records == old(records)[uid := r.(saved := Pull(r.saved, videoId))]
        && reply == ListUpdated(REMOVED_MSG, Pull(r.saved, videoId), r.uploads[videoId])
        && (videoId !in r.saved ==> records == old(records))
      // a `getSaved` after the remove lists no entry of the removed video
      ensures HasUpload(old(records), uid, videoId) ==>
        var l := Project(records[uid].saved, records[uid].uploads);
        forall i :: 0 <= i < |l| && l[i].Some? ==> l[i].value.id != videoId
      ensures !HasUpload(old(records), uid, videoId) ==> reply == ListError && records == old(records)
      ensures uid in old(records) && SavedKnown(old(records)[uid]) ==> SavedKnown(records[uid])
    {
      if !HasUpload(records, uid, videoId) {
        return ListError;
      }
      var r := records[uid];
      if videoId !in r.saved {
        PullAbsent(r.saved, videoId);
      }
      records := records[uid := r.(saved := Pull(r.saved, videoId))];
      RemovedNotListed(r.saved, r.uploads, videoId);
      var updated := records[uid];
      reply := ListUpdated(REMOVED_MSG, updated.saved, updated.uploads[videoId]);
    }
  }
}
