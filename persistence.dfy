/**
 * The persistent store that the party's actions read and change, reduced to the
 * state they touch: the communication-channel owner link table, the set of
 * persisted communication channels, and the next datastore identity.
 */
module Persistence {
  import opened Comms

  class Store {
    var links: seq<CommunicationChannelOwnerLink>
    var channels: set<CommunicationChannel>
    var nextId: nat

    /** The store's constraints: the link table's unique constraint and column lengths,
        the foreign key from each link to a persisted channel, identities below `nextId`,
        and one owner per channel (every link is created for a channel persisted just before). */
    ghost predicate Valid()
      reads this, links
    {
      && UniqueTriples(links)
      && SingleOwner(links)
      && (forall l :: l in links ==> l.ColumnsValid())
      && (forall l :: l in links ==> l.communicationChannel in channels)
      && (forall c :: c in channels ==> c.id < nextId)
    }

    constructor ()
      ensures Valid()
      ensures links == [] && channels == {}
    {
      links := [];
      channels := {};
      nextId := 0;
    }

    /** Instantiate, fill in and persist a new channel; the datastore assigns a fresh identity. */
    method PersistChannel(details: string) returns (channel: CommunicationChannel)
      requires Valid()
      modifies this`channels, this`nextId
      ensures Valid()
      ensures channel.details == details && channel !in old(channels)
      ensures forall c :: c in old(channels) ==> c.id != channel.id
      ensures channels == old(channels) + {channel}
      ensures links == old(links)
    {
      channel := CommunicationChannel(nextId, details);
      channels := channels + {channel};
      nextId := nextId + 1;
    }

    /** Persist a link from `channel` to the owner `(objectType, identifier)`. */
    method CreateLink(channel: CommunicationChannel, objectType: string, identifier: string)
      returns (link: CommunicationChannelOwnerLink)
      requires Valid()
      requires channel in channels
      requires |objectType| <= MaxColumnLength && |identifier| <= MaxColumnLength
      requires FindLinkByCommunicationChannel(links, channel).None?
      modifies this`links
      ensures Valid() && fresh(link)
      ensures link.communicationChannel == channel && OwnedBy(link, objectType, identifier)
      ensures links == old(links) + [link]
      ensures channels == old(channels)
    {
      link := new CommunicationChannelOwnerLink(channel, objectType, identifier);
      AppendKeepsSingleOwner(links, link);
      links := links + [link];
      SingleOwnerIsUnique(links);
    }

    /** Delete a link row unless it has already been deleted. */
    method RemoveLinkIfNotAlready(link: CommunicationChannelOwnerLink)
      requires Valid()
      modifies this`links
      ensures Valid()
      ensures links == Without(old(links), link)
      ensures channels == old(channels)
    {
      if link in links {
        WithoutKeepsSingleOwner(links, link);
        links := Without(links, link);
        SingleOwnerIsUnique(links);
      } else {
        WithoutAbsent(links, link);
      }
    }

    /** Delete a channel unless it has already been deleted; no link may still refer to it. */
    method RemoveChannelIfNotAlready(channel: CommunicationChannel)
      requires Valid()
      requires forall l :: l in links ==> l.communicationChannel != channel
      modifies this`channels
      ensures Valid()
      ensures channels == old(channels) - {channel}
      ensures links == old(links)
    {
      if channel in channels {
        channels := channels - {channel};
      }
    }
  }
}
