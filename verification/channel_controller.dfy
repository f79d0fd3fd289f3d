/**
 * The channel handlers of the server: creation, the caller's channel list, paged channel
 * history, join, leave and the membership-gated details view. The channel collection is
 * the class `ChannelDb`; join and leave change one channel document in place, and each is
 * specified by a function on the document (`JoinReply`, `LeaveReply`).
 */
module ChannelController {
  import opened Common
  import opened ServerModels
  import History
  import ListOps

  const AdminNotFound := "Admin user not found."
  const InvalidMembers := "Some members are not valid users."
  const ChannelNotFound := "Channel not found."
  const AlreadyMember := "User is already a member of this channel."
  const AdminCannotLeave := "Admin cannot leave the channel. Transfer admin rights or delete the channel."
  const NotMember := "User is not a member of this channel."
  const LeftChannel := "Successfully left the channel"

  /** A channel with its `memberCount`, as the join reply and the user's channel list carry it. */
  datatype ChannelView = ChannelView(channel: Channel, memberCount: nat)

  /** The reply of a join or leave, and the channel document as saved afterwards. */
  datatype Handled = Handled(reply: Reply<ChannelView>, saved: Channel)

  /** What `getChannelDetails` returns; `members` is null for a viewer outside the channel. */
  datatype DetailsView = DetailsView(
    name: string, admin: UserId, memberCount: nat,
    isUserMember: bool, isUserAdmin: bool, members: Option<seq<UserId>>)

  /** `members.length + 1`: the admin counted on top of the member list. */
  function MemberCount(c: Channel): nat {
    |c.members| + 1
  }

  function View(c: Channel): ChannelView {
    ChannelView(c, MemberCount(c))
  }

  /** Member lists hold plain ids, compared as they are. */
  function MemberKey(u: UserId): UserId {
    u
  }

  /** The distinct known users among `members`, as `User.find({ _id: { $in: members } })` returns them. */
  function Resolved(members: seq<UserId>, users: set<UserId>): set<UserId> {
    set m | m in members && m in users
  }

  function ResolvedCount(members: seq<UserId>, users: set<UserId>): nat {
    |Resolved(members, users)|
  }

  lemma ResolvedCons(x: UserId, t: seq<UserId>, users: set<UserId>)
    ensures Resolved([x] + t, users) == Resolved(t, users) + (if x in users then {x} else {})
  {
  }

  lemma DistinctCons(x: UserId, t: seq<UserId>)
    ensures ListOps.Distinct([x] + t) <==> x !in t && ListOps.Distinct(t)
  {
    var s := [x] + t;
    if x !in t && ListOps.Distinct(t) {
      forall a, b | 0 <= a < b < |s| ensures s[a] != s[b] {
        assert s[b] == t[b - 1];
        if a > 0 { assert s[a] == t[a - 1]; }
      }
    }
    if ListOps.Distinct(s) {
      forall a, b | 0 <= a < b < |t| ensures t[a] != t[b] {
        assert t[a] == s[a + 1] && t[b] == s[b + 1];
      }
      forall b | 0 <= b < |t| ensures t[b] != x {
        assert s[0] != s[b + 1];
      }
    }
  }

  /**
   * As many users resolve as ids were supplied exactly when every id is a known user and no
   * id is repeated; never more resolve than were supplied.
   */
  lemma {:induction false} ResolvedCountFull(members: seq<UserId>, users: set<UserId>)
    ensures ResolvedCount(members, users) <= |members|
    ensures ResolvedCount(members, users) == |members| <==>
      (forall m :: m in members ==> m in users) && ListOps.Distinct(members)
  {
    if members != [] {
      var x, t := members[0], members[1..];
      assert members == [x] + t;
      ResolvedCountFull(t, users);
      ResolvedCons(x, t, users);
      DistinctCons(x, t);
      var st := Resolved(t, users);
      if x in users && x !in st {
        assert |st + {x}| == |st| + 1;
      }
    }
  }

  /**
   * `createChannel`: 400 when the caller is not a known user, 400 when fewer users resolve
   * than ids were supplied, otherwise 201 with a channel whose admin is the caller and whose
   * members are exactly the supplied list (the caller is not removed from it).
   */
  function CreateReply(users: set<UserId>, caller: UserId, name: string, members: seq<UserId>): (r: Reply<Channel>)
    ensures r.Json? <==> caller in users && (forall m :: m in members ==> m in users) && ListOps.Distinct(members)
    ensures r.Json? ==> r.status == 201 && r.body == Channel(name, caller, members, [])
    ensures caller !in users ==> r == Text(400, AdminNotFound)
    ensures caller in users && !r.Json? ==> r == Text(400, InvalidMembers)
  {
    ResolvedCountFull(members, users);
    if caller !in users then Text(400, AdminNotFound)
    else if ResolvedCount(members, users) != |members| then Text(400, InvalidMembers)
    else Json(201, Channel(name, caller, members, []))
  }

  /**
   * `joinChannel` on a found channel: 400 and no change for a current member; otherwise the
   * caller is appended once at the end and the reply carries `memberCount`. Whether the caller
   * is the admin is not checked.
   */
  function JoinReply(c: Channel, user: UserId): (r: Handled)
    ensures r.reply.Text? <==> user in c.members
    ensures r.reply.Text? ==> r.reply == Text(400, AlreadyMember) && r.saved == c
    ensures r.reply.Json? ==> r.reply.status == 200 && r.reply.body == View(r.saved)
    ensures r.reply.Json? ==> r.saved == c.(members := c.members + [user])
    ensures r.reply.Json? ==> MemberCount(r.saved) == MemberCount(c) + 1
    ensures ListOps.Distinct(c.members) ==> ListOps.Distinct(r.saved.members)
  {
    if user in c.members then Handled(Text(400, AlreadyMember), c)
    else
      var saved := c.(members := c.members + [user]);
      Handled(Json(200, View(saved)), saved)
  }

  /**
   * `leaveChannel` on a found channel: 400 and no change for the admin or a non-member;
   * otherwise every occurrence of the caller is removed and the other members keep their
   * order and multiplicity.
   */
  function LeaveReply(c: Channel, user: UserId): (r: Handled)
    ensures user == c.admin ==> r == Handled(Text(400, AdminCannotLeave), c)
    ensures user != c.admin && user !in c.members ==> r == Handled(Text(400, NotMember), c)
    ensures user != c.admin && user in c.members ==>
      && r.reply == Text(200, LeftChannel)
      && r.saved == c.(members := r.saved.members)
      && user !in r.saved.members
      && ListOps.IsSubsequence(r.saved.members, c.members)
      && (forall y :: y != user ==> multiset(r.saved.members)[y] == multiset(c.members)[y])
    ensures ListOps.Distinct(c.members) ==> ListOps.Distinct(r.saved.members)
  {
    if user == c.admin then Handled(Text(400, AdminCannotLeave), c)
    else if user !in c.members then Handled(Text(400, NotMember), c)
    else
      var kept := ListOps.RemoveKey(c.members, MemberKey, user);
      assert forall y :: y != user ==> multiset(kept)[y] == multiset(c.members)[y] by {
        forall y | y != user ensures multiset(kept)[y] == multiset(c.members)[y] {
          ListOps.RemoveKeyKeepsOthers(c.members, MemberKey, user, y);
        }
      }
      assert ListOps.Distinct(c.members) ==> ListOps.Distinct(kept) by {
        if ListOps.Distinct(c.members) {
          ListOps.RemoveKeyDistinct(c.members, MemberKey, user);
        }
      }
      Handled(Text(200, LeftChannel), c.(members := kept))
  }

  /**
   * `getChannelDetails` on a found channel: the viewer is a member when listed in `members`
   * or when admin, and only then sees the member list; the count is always shown.
   */
  function Details(c: Channel, viewer: UserId): (d: DetailsView)
    ensures d.isUserMember <==> viewer in c.members || viewer == c.admin
    ensures d.isUserAdmin <==> viewer == c.admin
    ensures d.members == if d.isUserMember then Some(c.members) else None
    ensures d.memberCount == MemberCount(c) && d.admin == c.admin && d.name == c.name
  {
    var isMember := viewer in c.members || viewer == c.admin;
    DetailsView(c.name, c.admin, MemberCount(c), isMember, viewer == c.admin,
                if isMember then Some(c.members) else None)
  }

  /** The channel's stored messages: those whose id is in its message-id list, in store order. */
  function ChannelHistory(c: Channel, store: seq<StoredMessage>): (h: seq<StoredMessage>)
    ensures forall i :: 0 <= i < |h| ==> h[i] in store && h[i].id in c.messages
    ensures forall i :: 0 <= i < |store| && store[i].id in c.messages ==> store[i] in h
    ensures ListOps.IsSubsequence(h, store)
  {
    ListOps.Filter(store, (m: StoredMessage) => m.id in c.messages)
  }

  /**
   * `getChannelMessages` on a found channel: page and limit default to 1 and 20; the page is
   * the block of at most `limit` messages just older than the `(page - 1) * limit` newest,
   * oldest first; `hasMore` compares against the length of the channel's message-id list.
   */
  function ChannelPage(c: Channel, store: seq<StoredMessage>, page: Option<nat>, limit: Option<nat>): (r: Reply<HistoryPage>)
    ensures r.Json? && r.status == 201
    ensures var p := History.OrDefault(page, History.DefaultPage);
            var n := History.OrDefault(limit, History.DefaultLimit);
            var skip := History.Skip(p, n);
            var h := ChannelHistory(c, store);
            && r.body.messages == h[History.Remaining(|h|, skip + n)..History.Remaining(|h|, skip)]
            && |r.body.messages| <= n
            && (r.body.hasMore <==> skip + |r.body.messages| < |c.messages|)
            && r.body.currentPage == p
            && r.body.totalMessages == |c.messages|
  {
    var p := History.OrDefault(page, History.DefaultPage);
    var n := History.OrDefault(limit, History.DefaultLimit);
    var skip := History.Skip(p, n);
    var messages := History.NewestPage(ChannelHistory(c, store), skip, n);
    var total := |c.messages|;
    Json(201, HistoryPage(messages, History.HasMore(skip, |messages|, total), p, total))
  }

  /** The sort by `timestamp` and the reverse give every channel page in ascending time order. */
  lemma ChannelPageAscending(c: Channel, store: seq<StoredMessage>, page: Option<nat>, limit: Option<nat>)
    requires History.Ascending(store, Time)
    ensures History.Ascending(ChannelPage(c, store, page, limit).body.messages, Time)
  {
    History.FilterAscending(store, (m: StoredMessage) => m.id in c.messages, Time);
    var p := History.OrDefault(page, History.DefaultPage);
    var n := History.OrDefault(limit, History.DefaultLimit);
    History.PageAscending(ChannelHistory(c, store), History.Skip(p, n), n, Time);
  }

  /** A second join by the same user is refused and changes nothing. */
  lemma JoinTwiceRefused(c: Channel, user: UserId)
    ensures JoinReply(JoinReply(c, user).saved, user) == Handled(Text(400, AlreadyMember), JoinReply(c, user).saved)
  {
  }

  /** Nothing stops the admin from joining as a member of their own channel. */
  lemma AdminCanJoin(c: Channel)
    requires c.admin !in c.members
    ensures JoinReply(c, c.admin).reply.Json?
    ensures c.admin in JoinReply(c, c.admin).saved.members
  {
  }

  /** Leaving undoes joining: the member list is as it was before the join. */
  lemma LeaveUndoesJoin(c: Channel, user: UserId)
    requires user != c.admin && user !in c.members
    ensures LeaveReply(JoinReply(c, user).saved, user).saved == c
  {
    ListOps.RemoveKeyAppend(c.members, [user], MemberKey, user);
    ListOps.RemoveKeyAbsent(c.members, MemberKey, user);
    assert ListOps.RemoveKey([user], MemberKey, user) == [];
  }

  /** Removing an id that occurs once in a member list shortens it by one. */
  lemma RemoveOnce(s: seq<UserId>, user: UserId, i: nat)
    requires i < |s| && s[i] == user && user !in s[..i] && user !in s[i + 1..]
    ensures |ListOps.RemoveKey(s, MemberKey, user)| == |s| - 1
  {
    var pre, post := s[..i], s[i + 1..];
    assert s == pre + [user] + post;
    ListOps.RemoveKeyAppend(pre + [user], post, MemberKey, user);
    ListOps.RemoveKeyAppend(pre, [user], MemberKey, user);
    ListOps.RemoveKeyAbsent(pre, MemberKey, user);
    ListOps.RemoveKeyAbsent(post, MemberKey, user);
    assert ListOps.RemoveKey([user], MemberKey, user) == [];
  }

  /** A successful leave of a distinct member list lowers `memberCount` by exactly one. */
  lemma LeaveCount(c: Channel, user: UserId)
    requires ListOps.Distinct(c.members) && user != c.admin && user in c.members
    ensures MemberCount(LeaveReply(c, user).saved) == MemberCount(c) - 1
  {
    var s := c.members;
    var i :| 0 <= i < |s| && s[i] == user;
    assert user !in s[..i] by {
      forall j | 0 <= j < i ensures s[..i][j] != user { assert s[j] != s[i]; }
    }
    assert user !in s[i + 1..] by {
      forall j | i + 1 <= j < |s| ensures s[j] != user { assert s[j] != s[i]; }
    }
    RemoveOnce(s, user, i);
  }

  /** A successful join makes the member list visible to the new member. */
  lemma JoinRevealsMembers(c: Channel, user: UserId)
    requires user !in c.members
    ensures Details(JoinReply(c, user).saved, user).members == Some(c.members + [user])
  {
  }

  /** After a successful leave the former member no longer sees the member list. */
  lemma LeaveHidesMembers(c: Channel, user: UserId)
    requires user != c.admin && user in c.members
    ensures !Details(LeaveReply(c, user).saved, user).isUserMember
    ensures Details(LeaveReply(c, user).saved, user).members == None
  {
  }

  /**
   * The channel collection, the user collection and the message collection. Member lists
   * never hold a repeated id, and messages are stored in ascending timestamp order.
   */
  class ChannelDb {
    var users: set<UserId>
    var channels: map<ChannelId, Channel>
    var messages: seq<StoredMessage>

    ghost predicate Valid()
      reads this
    {
      && (forall id :: id in channels ==> ListOps.Distinct(channels[id].members))
      && History.Ascending(messages, Time)
    }

    constructor (users: set<UserId>)
      ensures Valid()
      ensures this.users == users && channels == map[] && messages == []
    {
      this.users := users;
      channels := map[];
      messages := [];
    }

    /** `createChannel`; `newId` is the id the database assigns to the new document. */
    method CreateChannel(caller: UserId, name: string, members: seq<UserId>, newId: ChannelId) returns (r: Reply<Channel>)
      requires Valid() && newId !in channels
      modifies this
      ensures Valid()
      ensures r == CreateReply(old(users), caller, name, members)
      ensures channels == if r.Json? then old(channels)[newId := r.body] else old(channels)
      ensures users == old(users) && messages == old(messages)
    {
      r := CreateReply(users, caller, name, members);
      if r.Json? {
        channels := channels[newId := r.body];
      }
    }

    /** `joinChannel`: 404 for an unknown channel, otherwise as `JoinReply`, saving the result. */
    method JoinChannel(channelId: ChannelId, user: UserId) returns (r: Reply<ChannelView>)
      requires Valid()
      modifies this
      ensures Valid()
      ensures channelId !in old(channels) ==> r == Text(404, ChannelNotFound) && channels == old(channels)
      ensures channelId in old(channels) ==>
        var h := JoinReply(old(channels)[channelId], user);
        r == h.reply && channels == old(channels)[channelId := h.saved]
      ensures users == old(users) && messages == old(messages)
    {
      if channelId !in channels {
        return Text(404, ChannelNotFound);
      }
      var h := JoinReply(channels[channelId], user);
      channels := channels[channelId := h.saved];
      r := h.reply;
    }

    /** `leaveChannel`: 404 for an unknown channel, otherwise as `LeaveReply`, saving the result. */
    method LeaveChannel(channelId: ChannelId, user: UserId) returns (r: Reply<ChannelView>)
      requires Valid()
      modifies this
      ensures Valid()
      ensures channelId !in old(channels) ==> r == Text(404, ChannelNotFound) && channels == old(channels)
      ensures channelId in old(channels) ==>
        var h := LeaveReply(old(channels)[channelId], user);
        r == h.reply && channels == old(channels)[channelId := h.saved]
      ensures users == old(users) && messages == old(messages)
    {
      if channelId !in channels {
        return Text(404, ChannelNotFound);
      }
      var h := LeaveReply(channels[channelId], user);
      channels := channels[channelId := h.saved];
      r := h.reply;
    }

    /**
     * `getUserChannels`: every channel the user administers or is listed in, each with
     * `memberCount`, answered with status 201.
     */
    function GetUserChannels(user: UserId): (r: Reply<map<ChannelId, ChannelView>>)
      reads this
      ensures r.Json? && r.status == 201
      ensures forall id :: id in r.body <==> id in channels && (channels[id].admin == user || user in channels[id].members)
      ensures forall id :: id in r.body ==> r.body[id] == ChannelView(channels[id], |channels[id].members| + 1)
    {
      Json(201, map id | id in channels && (channels[id].admin == user || user in channels[id].members) :: View(channels[id]))
    }

    /** `getChannelMessages`: 404 for an unknown channel, otherwise as `ChannelPage`. */
    function GetChannelMessages(channelId: ChannelId, page: Option<nat>, limit: Option<nat>): (r: Reply<HistoryPage>)
      reads this
      ensures channelId !in channels <==> r == Text(404, ChannelNotFound)
      ensures channelId in channels ==> r == ChannelPage(channels[channelId], messages, page, limit)
      ensures Valid() && r.Json? ==> History.Ascending(r.body.messages, Time)
    {
      if channelId !in channels then Text(404, ChannelNotFound)
      else
        assert Valid() ==> History.Ascending(ChannelPage(channels[channelId], messages, page, limit).body.messages, Time) by {
          if Valid() {
            ChannelPageAscending(channels[channelId], messages, page, limit);
          }
        }
        ChannelPage(channels[channelId], messages, page, limit)
    }

    /** `getChannelDetails`: 404 for an unknown channel, otherwise 200 with `Details`. */
    function GetChannelDetails(channelId: ChannelId, viewer: UserId): (r: Reply<DetailsView>)
      reads this
      ensures channelId !in channels <==> r == Text(404, ChannelNotFound)
      ensures channelId in channels ==> r == Json(200, Details(channels[channelId], viewer))
    {
      if channelId !in channels then Text(404, ChannelNotFound)
      else Json(200, Details(channels[channelId], viewer))
    }
  }

  /** A successful join puts the channel in the new member's channel list. */
  lemma JoinListsChannel(db: ChannelDb, channelId: ChannelId, user: UserId, c: Channel)
    requires channelId in db.channels && db.channels[channelId] == JoinReply(c, user).saved
    ensures channelId in db.GetUserChannels(user).body
  {
  }
}
