/**
 * The "browse channels" dialog: the channels the signed-in user could join, narrowed by a
 * search term, and joining one of them.
 */
module BrowseChannels {
  import opened Common
  import Text
  import ListOps
  import ChatSlice

  /** The fetched channel may be offered: not in the user's list, the user neither a member nor its admin. */
  predicate Joinable(c: ChatSlice.ChannelInfo, mine: seq<ChatSlice.ChannelInfo>, me: UserId) {
    && ListOps.FindIndex(mine, ChatSlice.ChannelKey, c.id) == -1
    && ListOps.FindIndex(c.members, ChatSlice.ContactKey, me) == -1
    && c.admin.id != me
  }

  function JoinableFor(mine: seq<ChatSlice.ChannelInfo>, me: UserId): ChatSlice.ChannelInfo -> bool {
    c => Joinable(c, mine, me)
  }

  /** The channels of the full list that `fetchAllChannels` keeps, in server order. */
  function Available(all: seq<ChatSlice.ChannelInfo>, mine: seq<ChatSlice.ChannelInfo>, me: UserId): (r: seq<ChatSlice.ChannelInfo>)
    ensures forall i :: 0 <= i < |r| ==>
      && r[i] in all
      && (forall j :: 0 <= j < |mine| ==> mine[j].id != r[i].id)
      && (forall j :: 0 <= j < |r[i].members| ==> r[i].members[j].id != me)
      && r[i].admin.id != me
    ensures forall i :: 0 <= i < |all| && Joinable(all[i], mine, me) ==> all[i] in r
    ensures ListOps.IsSubsequence(r, all)
  {
    ListOps.Filter(all, JoinableFor(mine, me))
  }

  /** A case-insensitive `includes` of `term` in the name or in the admin's first or last name. */
  predicate Matches(c: ChatSlice.ChannelInfo, term: string) {
    var t := Text.Lower(term);
    Text.Contains(Text.Lower(c.name), t)
    || Text.Contains(Text.Lower(c.admin.firstName), t)
    || Text.Contains(Text.Lower(c.admin.lastName), t)
  }

  function MatchesTerm(term: string): ChatSlice.ChannelInfo -> bool {
    c => Matches(c, term)
  }

  /**
   * Testing `c` against a non-blank term throws: the name does not match and the admin's first
   * name is missing, or the first name does not match and the last name is missing. A missing
   * name is the empty string here.
   */
  predicate MatchThrows(c: ChatSlice.ChannelInfo, term: string) {
    var t := Text.Lower(term);
    && !Text.Contains(Text.Lower(c.name), t)
    && (c.admin.firstName == "" || (!Text.Contains(Text.Lower(c.admin.firstName), t) && c.admin.lastName == ""))
  }

  /**
   * The search effect: everything for a blank term, otherwise the matching channels in order;
   * `None` when testing some channel throws, so the effect never sets the shown list.
   */
  function Search(channels: seq<ChatSlice.ChannelInfo>, term: string): (r: Option<seq<ChatSlice.ChannelInfo>>)
    ensures r.None? <==> !Text.IsBlank(term) && exists i :: 0 <= i < |channels| && MatchThrows(channels[i], term)
    ensures r.Some? && Text.IsBlank(term) ==> r.value == channels
    ensures r.Some? && !Text.IsBlank(term) ==>
      && (forall i :: 0 <= i < |r.value| ==> r.value[i] in channels && Matches(r.value[i], term))
      && (forall i :: 0 <= i < |channels| && Matches(channels[i], term) ==> channels[i] in r.value)
    ensures r.Some? ==> ListOps.IsSubsequence(r.value, channels)
  {
    if Text.IsBlank(term) then
      assert ListOps.IsSubsequence(channels, channels) by { SubsequenceReflexive(channels); }
      Some(channels)
    else if exists i :: 0 <= i < |channels| && MatchThrows(channels[i], term) then None
    else Some(ListOps.Filter(channels, MatchesTerm(term)))
  }

  lemma {:induction false} SubsequenceReflexive<T>(s: seq<T>)
    ensures ListOps.IsSubsequence(s, s)
  {
    if s != [] {
      SubsequenceReflexive(s[1..]);
    }
  }

  /** The search throws exactly when some listed admin's missing name gets read; with every name present it never throws. */
  lemma SearchThrowsOnlyOnMissingName(channels: seq<ChatSlice.ChannelInfo>, term: string)
    ensures (forall i :: 0 <= i < |channels| ==> channels[i].admin.firstName != "" && channels[i].admin.lastName != "")
      ==> Search(channels, term).Some?
    ensures Search(channels, term).None? ==>
      exists i :: 0 <= i < |channels| && (channels[i].admin.firstName == "" || channels[i].admin.lastName == "")
  {
  }

  /** A non-blank term that misses a channel's name throws on that channel when its admin has no first name. */
  lemma NamelessAdminThrows(channels: seq<ChatSlice.ChannelInfo>, term: string, i: nat)
    requires i < |channels| && !Text.IsBlank(term)
    requires !Text.Contains(Text.Lower(channels[i].name), Text.Lower(term)) && channels[i].admin.firstName == ""
    ensures Search(channels, term).None?
  {
    assert MatchThrows(channels[i], term);
  }

  /**
   * Dropping a channel before the search gives what dropping it from the search's result gives;
   * dropping never makes a search that did not throw throw.
   */
  lemma SearchAfterRemove(channels: seq<ChatSlice.ChannelInfo>, term: string, id: ChannelId)
    ensures Search(channels, term).Some? ==>
      Search(ListOps.RemoveKey(channels, ChatSlice.ChannelKey, id), term)
        == Some(ListOps.RemoveKey(Search(channels, term).value, ChatSlice.ChannelKey, id))
  {
    if Search(channels, term).Some? && !Text.IsBlank(term) {
      var rest := ListOps.RemoveKey(channels, ChatSlice.ChannelKey, id);
      forall i | 0 <= i < |rest| ensures !MatchThrows(rest[i], term) {
        assert rest[i] in channels;
      }
      ListOps.RemoveKeyCommutes(channels, ChatSlice.ChannelKey, id, MatchesTerm(term));
    }
  }

  /** A channel dropped from the available list is in neither it nor the search over it. */
  lemma SearchLacksRemoved(channels: seq<ChatSlice.ChannelInfo>, term: string, id: ChannelId)
    ensures var rest := ListOps.RemoveKey(channels, ChatSlice.ChannelKey, id);
      && ListOps.FindIndex(rest, ChatSlice.ChannelKey, id) == -1
      && (Search(rest, term).Some? ==> ListOps.FindIndex(Search(rest, term).value, ChatSlice.ChannelKey, id) == -1)
  {
    var rest := ListOps.RemoveKey(channels, ChatSlice.ChannelKey, id);
    var r := Search(rest, term);
    if r.Some? {
      forall i | 0 <= i < |r.value| ensures ChatSlice.ChannelKey(r.value[i]) != id {
        assert r.value[i] in rest;
      }
    }
  }

  /** The member count shown on a channel card: the members plus the admin. */
  function ShownMemberCount(c: ChatSlice.ChannelInfo): (n: nat)
    ensures n >= 1 && n == |c.members| + 1
  {
    |c.members| + 1
  }

  /** The ids of a list of users. */
  function IdSet(us: seq<ChatSlice.UserInfo>): set<UserId> {
    set i | 0 <= i < |us| :: us[i].id
  }

  lemma {:induction false} IdSetSize(us: seq<ChatSlice.UserInfo>)
    requires ListOps.DistinctKeys(us, ChatSlice.ContactKey)
    ensures |IdSet(us)| == |us|
  {
    if us != [] {
      var rest := us[1..];
      assert ListOps.DistinctKeys(rest, ChatSlice.ContactKey) by {
        forall a, b | 0 <= a < b < |rest| ensures rest[a].id != rest[b].id {
          assert ChatSlice.ContactKey(us[a + 1]) != ChatSlice.ContactKey(us[b + 1]);
        }
      }
      IdSetSize(rest);
      assert IdSet(us) == {us[0].id} + IdSet(rest) by {
        forall x ensures x in IdSet(us) <==> x in {us[0].id} + IdSet(rest) {
          if x in IdSet(us) {
            var i :| 0 <= i < |us| && us[i].id == x;
            if i > 0 { assert rest[i - 1].id == x; }
          }
          if x in IdSet(rest) {
            var i :| 0 <= i < |rest| && rest[i].id == x;
            assert us[i + 1].id == x;
          }
        }
      }
      assert us[0].id !in IdSet(rest) by {
        forall i | 0 <= i < |rest| ensures rest[i].id != us[0].id {
          assert ChatSlice.ContactKey(us[0]) != ChatSlice.ContactKey(us[i + 1]);
        }
      }
    }
  }

  /**
   * With distinct member ids and the admin not listed among the members, the shown count is the
   * number of people in the channel: the admin together with the members.
   */
  lemma ShownMemberCountCountsPeople(c: ChatSlice.ChannelInfo)
    requires ListOps.DistinctKeys(c.members, ChatSlice.ContactKey)
    requires ListOps.FindIndex(c.members, ChatSlice.ContactKey, c.admin.id) == -1
    ensures ShownMemberCount(c) == |{c.admin.id} + IdSet(c.members)|
  {
    IdSetSize(c.members);
    assert c.admin.id !in IdSet(c.members);
  }

  /** An admin who is also listed as a member is counted twice: the count exceeds the number of people. */
  lemma ShownMemberCountListedAdmin(c: ChatSlice.ChannelInfo)
    requires ListOps.DistinctKeys(c.members, ChatSlice.ContactKey)
    requires ListOps.FindIndex(c.members, ChatSlice.ContactKey, c.admin.id) != -1
    ensures ShownMemberCount(c) == |{c.admin.id} + IdSet(c.members)| + 1
  {
    IdSetSize(c.members);
    var i := ListOps.FindIndex(c.members, ChatSlice.ContactKey, c.admin.id);
    assert c.members[i].id == c.admin.id;
    assert {c.admin.id} + IdSet(c.members) == IdSet(c.members);
  }

  class ChannelBrowser {
    const store: ChatSlice.ChatStore
    var allChannels: seq<ChatSlice.ChannelInfo>
    var filteredChannels: seq<ChatSlice.ChannelInfo>
    var loading: bool
    var searchTerm: string
    var joiningChannels: set<ChannelId>

    /** Whenever the search over the available list does not throw, the shown list is its result. */
    predicate Valid()
      reads this
    {
      var r := Search(allChannels, searchTerm);
      r.Some? ==> filteredChannels == r.value
    }

    constructor (s: ChatSlice.ChatStore)
      ensures Valid() && store == s
      ensures allChannels == [] && filteredChannels == [] && searchTerm == "" && joiningChannels == {} && !loading
    {
      store := s;
      allChannels := [];
      filteredChannels := [];
      loading := false;
      searchTerm := "";
      joiningChannels := {};
    }

    /**
     * The effect that follows a change of the term or of the available list: the shown list
     * becomes the search, or the search throws (`threw`) and the shown list stays.
     */
    method SearchEffect() returns (threw: bool)
      modifies this
      ensures Valid()
      ensures threw <==> Search(allChannels, searchTerm).None?
      ensures threw ==> filteredChannels == old(filteredChannels)
      ensures allChannels == old(allChannels) && searchTerm == old(searchTerm)
      ensures loading == old(loading) && joiningChannels == old(joiningChannels)
    {
      var r := Search(allChannels, searchTerm);
      threw := r.None?;
      if r.Some? {
        filteredChannels := r.value;
      }
    }

    /**
     * Typing in the search box; the search effect then recomputes the shown list, or throws
     * (`threw`) and leaves it as it was.
     */
    method SetSearchTerm(term: string) returns (threw: bool)
      modifies this
      ensures Valid()
      ensures threw <==> Search(allChannels, term).None?
      ensures !threw ==> filteredChannels == Search(allChannels, term).value
      ensures threw ==> filteredChannels == old(filteredChannels)
      ensures searchTerm == term && allChannels == old(allChannels)
      ensures loading == old(loading) && joiningChannels == old(joiningChannels)
    {
      searchTerm := term;
      // the search effect runs because the term changed
      threw := SearchEffect();
    }

    /**
     * `fetchAllChannels`: with a response (`Some`) and a signed-in user, both lists become the
     * channels the user could join, and the search effect then narrows the shown list or throws
     * (`threw`). A failed request, or reading the id of a missing user, keeps the lists. Loading
     * is over in either case.
     */
    method FetchAllChannels(response: Option<seq<ChatSlice.ChannelInfo>>) returns (threw: bool)
      modifies this
      requires Valid()
      ensures Valid() && !loading
      ensures response.Some? && store.userInfo.Some? ==>
        && allChannels == Available(response.value, store.channels, store.userInfo.value.id)
        && (threw <==> Search(allChannels, searchTerm).None?)
        && (threw ==> filteredChannels == allChannels)
      ensures response.None? || store.userInfo.None? ==>
        allChannels == old(allChannels) && filteredChannels == old(filteredChannels) && !threw
      ensures searchTerm == old(searchTerm) && joiningChannels == old(joiningChannels)
    {
      loading := true;
      threw := false;
      if response.Some? && store.userInfo.Some? {
        allChannels := Available(response.value, store.channels, store.userInfo.value.id);
        filteredChannels := allChannels;
        // the search effect runs because the available list changed
        threw := SearchEffect();
      }
      loading := false;
    }

    /** The start of `handleJoinChannel`: the channel is marked as being joined while the request runs. */
    method BeginJoin(id: ChannelId)
      modifies this
      ensures joiningChannels == old(joiningChannels) + {id}
      ensures allChannels == old(allChannels) && filteredChannels == old(filteredChannels)
      ensures searchTerm == old(searchTerm) && loading == old(loading)
    {
      joiningChannels := joiningChannels + {id};
    }

    /**
     * A joined channel leaves both lists of the dialog; the search effect then recomputes the
     * shown list or throws (`threw`), leaving it without the channel either way.
     */
    method DropJoined(id: ChannelId) returns (threw: bool)
      modifies this
      requires Valid()
      ensures Valid()
      ensures allChannels == ListOps.RemoveKey(old(allChannels), ChatSlice.ChannelKey, id)
      ensures ListOps.FindIndex(allChannels, ChatSlice.ChannelKey, id) == -1
      ensures ListOps.FindIndex(filteredChannels, ChatSlice.ChannelKey, id) == -1
      ensures threw <==> Search(allChannels, searchTerm).None?
      ensures threw ==> filteredChannels == ListOps.RemoveKey(old(filteredChannels), ChatSlice.ChannelKey, id)
      ensures old(Search(allChannels, searchTerm)).Some? ==>
        !threw && filteredChannels == ListOps.RemoveKey(old(filteredChannels), ChatSlice.ChannelKey, id)
      ensures searchTerm == old(searchTerm) && loading == old(loading) && joiningChannels == old(joiningChannels)
    {
      SearchAfterRemove(allChannels, searchTerm, id);
      SearchLacksRemoved(allChannels, searchTerm, id);
      SearchLacksRemoved(filteredChannels, searchTerm, id);
      allChannels := ListOps.RemoveKey(allChannels, ChatSlice.ChannelKey, id);
      filteredChannels := ListOps.RemoveKey(filteredChannels, ChatSlice.ChannelKey, id);
      // the search effect runs because the available list changed
      threw := SearchEffect();
    }

    /**
     * The end of `handleJoinChannel`: on success (`Some` holding the joined channel) the
     * channel is added to the store's list and dropped from both lists of the dialog, and the
     * search effect then recomputes the shown list or throws (`threw`); on failure the lists
     * stay. Either way the channel is no longer marked as being joined.
     */
    method CompleteJoin(id: ChannelId, joined: Option<ChatSlice.ChannelInfo>) returns (threw: bool)
      modifies this, store
      requires Valid()
      ensures Valid()
      ensures joiningChannels == old(joiningChannels) - {id}
      ensures joined.Some? ==>
        && store.Snapshot() == old(store.Snapshot()).(channels := [joined.value] + old(store.channels))
        && allChannels == ListOps.RemoveKey(old(allChannels), ChatSlice.ChannelKey, id)
        && ListOps.FindIndex(allChannels, ChatSlice.ChannelKey, id) == -1
        && ListOps.FindIndex(filteredChannels, ChatSlice.ChannelKey, id) == -1
        && (threw <==> Search(allChannels, searchTerm).None?)
        && (threw ==> filteredChannels == ListOps.RemoveKey(old(filteredChannels), ChatSlice.ChannelKey, id))
      ensures joined.Some? && old(Search(allChannels, searchTerm)).Some? ==>
        !threw && filteredChannels == ListOps.RemoveKey(old(filteredChannels), ChatSlice.ChannelKey, id)
      ensures joined.None? ==>
        && store.Snapshot() == old(store.Snapshot())
        && allChannels == old(allChannels) && filteredChannels == old(filteredChannels) && !threw
      ensures searchTerm == old(searchTerm) && loading == old(loading)
    {
      threw := false;
      if joined.Some? {
        store.AddChannel(joined.value);
        threw := DropJoined(id);
      }
      joiningChannels := joiningChannels - {id};
    }

    /** `handleJoinChannel` as a whole: the join starts and completes with the request's outcome. */
    method HandleJoinChannel(id: ChannelId, joined: Option<ChatSlice.ChannelInfo>) returns (threw: bool)
      modifies this, store
      requires Valid()
      ensures Valid()
      ensures joiningChannels == old(joiningChannels) - {id}
      ensures joined.Some? ==>
        && store.Snapshot() == old(store.Snapshot()).(channels := [joined.value] + old(store.channels))
        && allChannels == ListOps.RemoveKey(old(allChannels), ChatSlice.ChannelKey, id)
        && ListOps.FindIndex(filteredChannels, ChatSlice.ChannelKey, id) == -1
        && (threw <==> Search(allChannels, searchTerm).None?)
      ensures joined.Some? && old(Search(allChannels, searchTerm)).Some? ==>
        !threw && filteredChannels == ListOps.RemoveKey(old(filteredChannels), ChatSlice.ChannelKey, id)
      ensures joined.None? ==>
        && store.Snapshot() == old(store.Snapshot())
        && allChannels == old(allChannels) && filteredChannels == old(filteredChannels) && !threw
      ensures searchTerm == old(searchTerm) && loading == old(loading)
    {
      BeginJoin(id);
      threw := CompleteJoin(id, joined);
    }
  }
}
