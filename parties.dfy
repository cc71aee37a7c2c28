/**
 * A party owns communication channels through the polymorphic link table: its
 * channel list is derived from the links that name it as owner, and its actions
 * add and remove a channel together with its link.
 */
module Parties {
  import opened Wrappers
  import opened Comms
  import opened Persistence

  /** The type tag under which parties are recorded as owners. */
  const ObjectType := "PARTY"
  /** Column and parameter length of a party's name. */
  const MaxNameLength := 40

  const DuplicateDetailsMessage := "Already have a communication channel with those details"
  const NoChannelMessage := "Does not own a communication channel"
  const NotOwnedMessage := "Not a communication channel of this party"

  /** The sign of the natural (lexicographic) comparison of two names. */
  function CompareNames(a: string, b: string): (r: int)
    ensures -1 <= r <= 1
    ensures r == 0 <==> a == b
  {
    if a == [] then (if b == [] then 0 else -1)
    else if b == [] then 1
    else if a[0] < b[0] then -1
    else if b[0] < a[0] then 1
    else
      assert a == [a[0]] + a[1..] && b == [b[0]] + b[1..];
      CompareNames(a[1..], b[1..])
  }

  /** Swapping the names negates the comparison. */
  lemma {:induction false} CompareNamesAntisymmetric(a: string, b: string)
    ensures CompareNames(a, b) == -CompareNames(b, a)
  {
    if a != [] && b != [] && a[0] == b[0] {
      CompareNamesAntisymmetric(a[1..], b[1..]);
    }
  }

  /** "Orders before" on names is transitive. */
  lemma {:induction false} CompareNamesTransitive(a: string, b: string, c: string)
    requires CompareNames(a, b) < 0 && CompareNames(b, c) < 0
    ensures CompareNames(a, c) < 0
  {
    if a != [] && b != [] && c != [] && a[0] == b[0] && b[0] == c[0] {
      CompareNamesTransitive(a[1..], b[1..], c[1..]);
    }
  }

  /** Linking one more channel to a party appends that channel to the party's channel list. */
  lemma OwnedChannelsAppend(links: seq<CommunicationChannelOwnerLink>, link: CommunicationChannelOwnerLink,
                            identifier: string)
    requires OwnedBy(link, ObjectType, identifier)
    ensures ChannelsOf(FindByOwner(links + [link], ObjectType, identifier)) ==
            ChannelsOf(FindByOwner(links, ObjectType, identifier)) + [link.communicationChannel]
  {
    FindByOwnerAppend(links, link, ObjectType, identifier);
    ChannelsOfAppend(FindByOwner(links, ObjectType, identifier), link);
  }

  class Party {
    var name: string
    /** The identifier under which the datastore bookmarks this party. */
    const identifier: string
    /** The container and link repository this party works against. */
    const store: Store

    constructor (name: string, identifier: string, store: Store)
      requires |name| <= MaxNameLength && |identifier| <= MaxColumnLength
      ensures this.name == name && this.identifier == identifier && this.store == store
    {
      this.name := name;
      this.identifier := identifier;
      this.store := store;
    }

    ghost predicate Valid()
      reads this, store, store.links
    {
      store.Valid() && |name| <= MaxNameLength && |identifier| <= MaxColumnLength
    }

    method SetName(newName: string)
      modifies this
      ensures name == newName
    {
      name := newName;
    }

    /** The `updateName` action: set the name, change nothing else, return this party. */
    method UpdateName(newName: string) returns (owner: Party)
      requires Valid()
      requires |newName| <= MaxNameLength
      modifies this
      ensures Valid() && owner == this
      ensures name == newName && Default0UpdateName() == newName
    {
      SetName(newName);
      owner := this;
    }

    /** The default offered for `updateName`: the current name, which is itself a valid argument. */
    function Default0UpdateName(): (default: string)
      reads this
      requires |name| <= MaxNameLength
      ensures default == name && |default| <= MaxNameLength
    {
      name
    }

    /** Parties are ordered by name alone. */
    function CompareTo(other: Party): (r: int)
      reads this, other
      ensures -1 <= r <= 1
      ensures r == 0 <==> name == other.name
    {
      CompareNames(name, other.name)
    }

    /** `findByOwner(this)`: the links recording this party as owner. */
    function OwnerLinks(): (ownerLinks: seq<CommunicationChannelOwnerLink>)
      reads store`links, store.links
      ensures forall l :: l in ownerLinks ==> l in store.links && OwnedBy(l, ObjectType, identifier)
      ensures forall l :: l in store.links && OwnedBy(l, ObjectType, identifier) ==> l in ownerLinks
    {
      FindByOwner(store.links, ObjectType, identifier)
    }

    /** The derived collection: the channel of each owner link, in the same order. */
    function GetCommunicationChannels(): (channels: seq<CommunicationChannel>)
      reads store`links, store.links
      ensures |channels| == |OwnerLinks()|
      ensures forall i :: 0 <= i < |channels| ==> channels[i] == OwnerLinks()[i].communicationChannel
    {
      ChannelsOf(OwnerLinks())
    }

    /** A channel is one of this party's exactly when some link records this party as its owner. */
    lemma OwnsChannel(channel: CommunicationChannel)
      ensures channel in GetCommunicationChannels() <==>
              exists l :: l in store.links && OwnedBy(l, ObjectType, identifier) && l.communicationChannel == channel
    {
      ChannelsOfContains(OwnerLinks(), channel);
    }

    /** The search loop of `validate0AddCommunicationChannel`. */
    method Validate0AddCommunicationChannel(details: string) returns (reason: Option<string>)
      ensures reason.Some? <==> exists c :: c in GetCommunicationChannels() && c.details == details
      ensures reason.Some? ==> reason.value == DuplicateDetailsMessage
    {
      var channels := GetCommunicationChannels();
      for i := 0 to |channels|
        invariant forall k :: 0 <= k < i ==> channels[k].details != details
      {
        if channels[i].details == details {
          return Some(DuplicateDetailsMessage);
        }
      }
      return None;
    }

    /** The `addCommunicationChannel` action: persist a channel with the given details, link it
        to this party, and return this party. */
    method AddCommunicationChannel(details: string) returns (owner: Party, ghost channel: CommunicationChannel)
      requires Valid()
      modifies store
      ensures Valid() && owner == this
      ensures channel.details == details && channel !in old(store.channels)
      ensures forall c :: c in old(store.channels) ==> c.id != channel.id
      ensures store.channels == old(store.channels) + {channel}
      ensures |store.links| == |old(store.links)| + 1 && store.links[..|old(store.links)|] == old(store.links)
      ensures fresh(store.links[|old(store.links)|])
      ensures store.links[|old(store.links)|].communicationChannel == channel
      ensures OwnedBy(store.links[|old(store.links)|], ObjectType, identifier)
      ensures GetCommunicationChannels() == old(GetCommunicationChannels()) + [channel]
    {
      ghost var before := store.links;
      ghost var ownedChannels := GetCommunicationChannels();
      var persisted := store.PersistChannel(details);
      channel := persisted;
      assert GetCommunicationChannels() == ownedChannels;
      var link := LinkChannel(persisted);
      assert store.links[..|before|] == before;
      owner := this;
    }

    /** The second step of `addCommunicationChannel`: link a persisted channel that has no link
        yet to this party; the channel joins the end of the party's channel list. */
    method LinkChannel(channel: CommunicationChannel) returns (link: CommunicationChannelOwnerLink)
      requires Valid()
      requires channel in store.channels && FindLinkByCommunicationChannel(store.links, channel).None?
      modifies store`links
      ensures Valid() && fresh(link)
      ensures link.communicationChannel == channel && OwnedBy(link, ObjectType, identifier)
      ensures store.links == old(store.links) + [link] && store.channels == old(store.channels)
      ensures GetCommunicationChannels() == old(GetCommunicationChannels()) + [channel]
    {
      ghost var before := store.links;
      ghost var owned := OwnerLinks();
      ghost var ownedChannels := GetCommunicationChannels();
      link := store.CreateLink(channel, ObjectType, identifier);
      assert FindByOwner(before, ObjectType, identifier) == owned;
      assert ChannelsOf(owned) == ownedChannels;
      OwnedChannelsAppend(before, link, identifier);
    }

    /** Why `removeCommunicationChannel` is disabled: this party owns no channel. */
    function DisableRemoveCommunicationChannel(channel: CommunicationChannel): (reason: Option<string>)
      reads store`links, store.links
      ensures reason.None? <==> exists c :: c in GetCommunicationChannels()
      ensures reason.Some? ==> reason.value == NoChannelMessage
    {
      var ownerLinks := OwnerLinks();
      if |ownerLinks| == 0 then Some(NoChannelMessage)
      else
        assert GetCommunicationChannels()[0] in GetCommunicationChannels();
        None
    }

    /** Why a channel cannot be removed: its link does not record this party as owner. */
    function Validate0RemoveCommunicationChannel(channel: CommunicationChannel): (reason: Option<string>)
      reads store`links, store.links
      ensures reason.None? ==> channel in GetCommunicationChannels()
      ensures reason.Some? ==> reason.value == NotOwnedMessage
    {
      var ownerLinks := OwnerLinks();
      var ownerLink := FindLinkByCommunicationChannel(store.links, channel);
      if ownerLink.Some? && ownerLink.value in ownerLinks then
        OwnsChannel(channel);
        None
      else Some(NotOwnedMessage)
    }

    /** The channels offered to `removeCommunicationChannel`: this party's channels. */
    function Choices0RemoveCommunicationChannel(): (choices: seq<CommunicationChannel>)
      reads store`links, store.links
      ensures choices == GetCommunicationChannels()
    {
      ChannelsOf(OwnerLinks())
    }

    /** In a valid store, a channel passes `validate0RemoveCommunicationChannel` exactly when it
        is one of the choices offered. */
    lemma RemoveGuardsAgree(channel: CommunicationChannel)
      requires store.Valid()
      ensures Validate0RemoveCommunicationChannel(channel).None? <==> channel in Choices0RemoveCommunicationChannel()
    {
      if channel in Choices0RemoveCommunicationChannel() {
        OwnsChannel(channel);
        var l :| l in store.links && OwnedBy(l, ObjectType, identifier) && l.communicationChannel == channel;
        var found := FindLinkByCommunicationChannel(store.links, channel);
        SingleOwnerLinkIsUnique(store.links, found.value, l);
      }
    }

    /** In a valid store, the action is disabled exactly when no channel would pass validation. */
    lemma DisableAgreesWithValidate(channel: CommunicationChannel)
      requires store.Valid()
      ensures DisableRemoveCommunicationChannel(channel).Some? <==>
              forall c :: Validate0RemoveCommunicationChannel(c).Some?
    {
      if DisableRemoveCommunicationChannel(channel).None? {
        var c := GetCommunicationChannels()[0];
        RemoveGuardsAgree(c);
      }
    }

    /** The `removeCommunicationChannel` action: when the channel's link records this party as
        owner, remove that link and then the channel; otherwise change nothing. */
    method RemoveCommunicationChannel(channel: CommunicationChannel) returns (owner: Party)
      requires Valid()
      modifies store`links, store`channels
      ensures Valid() && owner == this
      ensures old(Validate0RemoveCommunicationChannel(channel)).None? ==>
                && store.links == Without(old(store.links), old(FindLinkByCommunicationChannel(store.links, channel)).value)
                && store.channels == old(store.channels) - {channel}
                && FindLinkByCommunicationChannel(store.links, channel).None?
                && forall c :: c in GetCommunicationChannels() <==> c in old(GetCommunicationChannels()) && c != channel
      ensures old(Validate0RemoveCommunicationChannel(channel)).Some? ==>
                store.links == old(store.links) && store.channels == old(store.channels)
    {
      var ownerLinks := OwnerLinks();
      var ownerLink := FindLinkByCommunicationChannel(store.links, channel);
      if ownerLink.Some? && ownerLink.value in ownerLinks {
        RemoveLinkAndChannel(ownerLink.value);
      }
      owner := this;
    }

    /** The two removals of `removeCommunicationChannel`: the link, which records this party as
        owner, and then its channel. */
    method RemoveLinkAndChannel(link: CommunicationChannelOwnerLink)
      requires Valid()
      requires link in store.links && OwnedBy(link, ObjectType, identifier)
      modifies store`links, store`channels
      ensures Valid()
      ensures store.links == Without(old(store.links), link)
      ensures store.channels == old(store.channels) - {link.communicationChannel}
      ensures forall l :: l in store.links ==> l.communicationChannel != link.communicationChannel
      ensures forall c :: c in GetCommunicationChannels() <==>
                c in old(GetCommunicationChannels()) && c != link.communicationChannel
    {
      DetachLink(link);
      ghost var detached := store.links;
      ghost var remaining := GetCommunicationChannels();
      store.RemoveChannelIfNotAlready(link.communicationChannel);
      assert store.links == detached;
      assert GetCommunicationChannels() == remaining;
    }

    /** The first removal of `removeCommunicationChannel`: the link, which records this party
        as owner. Afterwards no link refers to its channel. */
    method DetachLink(link: CommunicationChannelOwnerLink)
      requires Valid()
      requires link in store.links && OwnedBy(link, ObjectType, identifier)
      modifies store`links
      ensures Valid()
      ensures store.links == Without(old(store.links), link) && store.channels == old(store.channels)
      ensures forall l :: l in store.links ==> l.communicationChannel != link.communicationChannel
      ensures forall c :: c in GetCommunicationChannels() <==>
                c in old(GetCommunicationChannels()) && c != link.communicationChannel
    {
      ghost var before := store.links;
      ghost var ownerLinks := OwnerLinks();
      ghost var ownedChannels := GetCommunicationChannels();
      store.RemoveLinkIfNotAlready(link);
      assert FindByOwner(before, ObjectType, identifier) == ownerLinks;
      assert ChannelsOf(ownerLinks) == ownedChannels;
      forall l | l in before && l != link ensures l.communicationChannel != link.communicationChannel {
        if l.communicationChannel == link.communicationChannel {
          SingleOwnerLinkIsUnique(before, l, link);
        }
      }
      FindByOwnerWithout(before, link, ObjectType, identifier);
      assert OwnerLinks() == Without(ownerLinks, link);
      ChannelsOfWithout(ownerLinks, link);
    }
  }
}

/** A client of the party's actions: a party gains a channel, is refused a second channel with
    the same details, and gives the channel up again. */
module PartyScenario {
  import opened Wrappers
  import opened Comms
  import opened Persistence
  import opened Parties

  method ChannelLifecycle() {
    var store := new Store();
    var party := new Party("Fred", "1", store);
    var none := party.Validate0AddCommunicationChannel("fred@example.com");
    assert none == None;
    var owner, channel := party.AddCommunicationChannel("fred@example.com");
    assert party.GetCommunicationChannels() == [channel];
    var duplicate := party.Validate0AddCommunicationChannel("fred@example.com");
    assert duplicate == Some(DuplicateDetailsMessage);
    assert party.DisableRemoveCommunicationChannel(channel) == None;
    var choices := party.Choices0RemoveCommunicationChannel();
    var chosen := choices[0];
    party.RemoveGuardsAgree(chosen);
    assert party.Validate0RemoveCommunicationChannel(chosen) == None;
    owner := party.RemoveCommunicationChannel(chosen);
    assert chosen == channel && channel !in store.channels;
    assert party.GetCommunicationChannels() == [];
    assert party.DisableRemoveCommunicationChannel(channel) == Some(NoChannelMessage);
  }
}
