/**
 * The communication-channel side of the polymorphic link: a link from a
 * communication channel (the subject) to its owner, which is recorded as a
 * type tag plus an identifier instead of a direct reference.
 */
module Comms {
  import opened Wrappers

  /** Column length of `ownerObjectType` and `ownerIdentifier`. */
  const MaxColumnLength := 255

  /** A persisted communication channel: its datastore identity and its details. */
  datatype CommunicationChannel = CommunicationChannel(id: nat, details: string)

  /** One row of the link table. */
  class CommunicationChannelOwnerLink {
    var communicationChannel: CommunicationChannel
    var ownerObjectType: string
    var ownerIdentifier: string

    constructor (channel: CommunicationChannel, objectType: string, identifier: string)
      ensures communicationChannel == channel
      ensures ownerObjectType == objectType && ownerIdentifier == identifier
      ensures ColumnsValid() <==> |objectType| <= MaxColumnLength && |identifier| <= MaxColumnLength
    {
      communicationChannel := channel;
      ownerObjectType := objectType;
      ownerIdentifier := identifier;
    }

    /** The column constraints: the type tag and identifier fit their 255-character columns
        (non-null is given by the types). */
    predicate ColumnsValid(): (valid: bool)
      reads this
      ensures valid <==> |GetOwnerObjectType()| <= MaxColumnLength && |GetOwnerIdentifier()| <= MaxColumnLength
    {
      |ownerObjectType| <= MaxColumnLength && |ownerIdentifier| <= MaxColumnLength
    }

    function GetCommunicationChannel(): (channel: CommunicationChannel)
      reads this
      ensures channel == communicationChannel
    {
      communicationChannel
    }

    method SetCommunicationChannel(channel: CommunicationChannel)
      modifies this
      ensures GetCommunicationChannel() == channel
      ensures ownerObjectType == old(ownerObjectType) && ownerIdentifier == old(ownerIdentifier)
      ensures ColumnsValid() == old(ColumnsValid())
    {
      communicationChannel := channel;
    }

    function GetOwnerObjectType(): (objectType: string)
      reads this
      ensures objectType == ownerObjectType
    {
      ownerObjectType
    }

    method SetOwnerObjectType(objectType: string)
      modifies this
      ensures GetOwnerObjectType() == objectType
      ensures communicationChannel == old(communicationChannel) && ownerIdentifier == old(ownerIdentifier)
      ensures ColumnsValid() <==> |objectType| <= MaxColumnLength && |ownerIdentifier| <= MaxColumnLength
    {
      ownerObjectType := objectType;
    }

    function GetOwnerIdentifier(): (identifier: string)
      reads this
      ensures identifier == ownerIdentifier
    {
      ownerIdentifier
    }

    method SetOwnerIdentifier(identifier: string)
      modifies this
      ensures GetOwnerIdentifier() == identifier
      ensures communicationChannel == old(communicationChannel) && ownerObjectType == old(ownerObjectType)
      ensures ColumnsValid() <==> |ownerObjectType| <= MaxColumnLength && |identifier| <= MaxColumnLength
    {
      ownerIdentifier := identifier;
    }

    /** The generic subject of the link is the communication channel field. */
    function GetSubject(): (subject: CommunicationChannel)
      reads this
      ensures subject == communicationChannel
    {
      GetCommunicationChannel()
    }

    method SetSubject(subject: CommunicationChannel)
      modifies this
      ensures GetSubject() == subject && GetCommunicationChannel() == subject
      ensures ownerObjectType == old(ownerObjectType) && ownerIdentifier == old(ownerIdentifier)
      ensures ColumnsValid() == old(ColumnsValid())
    {
      SetCommunicationChannel(subject);
    }

    /** The generic type tag of the link is the owner's type tag. */
    function GetPolymorphicObjectType(): (objectType: string)
      reads this
      ensures objectType == ownerObjectType
    {
      GetOwnerObjectType()
    }

    method SetPolymorphicObjectType(objectType: string)
      modifies this
      ensures GetPolymorphicObjectType() == objectType && GetOwnerObjectType() == objectType
      ensures communicationChannel == old(communicationChannel) && ownerIdentifier == old(ownerIdentifier)
      ensures ColumnsValid() <==> |objectType| <= MaxColumnLength && |ownerIdentifier| <= MaxColumnLength
    {
      SetOwnerObjectType(objectType);
    }

    /** The generic identifier of the link is the owner's identifier. */
    function GetPolymorphicIdentifier(): (identifier: string)
      reads this
      ensures identifier == ownerIdentifier
    {
      GetOwnerIdentifier()
    }

    method SetPolymorphicIdentifier(identifier: string)
      modifies this
      ensures GetPolymorphicIdentifier() == identifier && GetOwnerIdentifier() == identifier
      ensures communicationChannel == old(communicationChannel) && ownerObjectType == old(ownerObjectType)
      ensures ColumnsValid() <==> |ownerObjectType| <= MaxColumnLength && |identifier| <= MaxColumnLength
    {
      SetOwnerIdentifier(identifier);
    }
  }

  /** `Functions.GET_COMMUNICATION_CHANNEL`: a link's channel. */
  function GetCommunicationChannelOf(link: CommunicationChannelOwnerLink): (channel: CommunicationChannel)
    reads link
    ensures channel == link.GetSubject()
  {
    link.GetCommunicationChannel()
  }

  /** `GET_COMMUNICATION_CHANNEL` applied to every link, in order. */
  function ChannelsOf(links: seq<CommunicationChannelOwnerLink>): (channels: seq<CommunicationChannel>)
    reads set l | l in links
    ensures |channels| == |links|
    ensures forall i :: 0 <= i < |links| ==> channels[i] == links[i].communicationChannel
  {
    if links == [] then [] else [GetCommunicationChannelOf(links[0])] + ChannelsOf(links[1..])
  }

  /** A channel is in the mapped list exactly when some link of the list refers to it. */
  lemma ChannelsOfContains(links: seq<CommunicationChannelOwnerLink>, channel: CommunicationChannel)
    ensures channel in ChannelsOf(links) <==> exists l :: l in links && l.communicationChannel == channel
  {
    var channels := ChannelsOf(links);
    if channel in channels {
      var i :| 0 <= i < |channels| && channels[i] == channel;
      assert links[i] in links;
    }
    if exists l :: l in links && l.communicationChannel == channel {
      var l :| l in links && l.communicationChannel == channel;
      var i :| 0 <= i < |links| && links[i] == l;
      assert channels[i] == channel;
    }
  }

  /** Mapping distributes over appending one link. */
  lemma ChannelsOfAppend(links: seq<CommunicationChannelOwnerLink>, link: CommunicationChannelOwnerLink)
    ensures ChannelsOf(links + [link]) == ChannelsOf(links) + [link.communicationChannel]
  {
    var lhs, rhs := ChannelsOf(links + [link]), ChannelsOf(links) + [link.communicationChannel];
    assert |lhs| == |rhs|;
    forall i | 0 <= i < |lhs| ensures lhs[i] == rhs[i] {
      if i < |links| {
        assert (links + [link])[i] == links[i];
      }
    }
  }

  /** Removing the only row of a channel from a list removes exactly that channel from the
      mapped list. */
  lemma ChannelsOfWithout(links: seq<CommunicationChannelOwnerLink>, link: CommunicationChannelOwnerLink)
    requires link in links
    requires forall l :: l in links && l != link ==> l.communicationChannel != link.communicationChannel
    ensures forall c :: c in ChannelsOf(Without(links, link)) <==>
                        c in ChannelsOf(links) && c != link.communicationChannel
  {
    forall c ensures c in ChannelsOf(Without(links, link)) <==> c in ChannelsOf(links) && c != link.communicationChannel {
      ChannelsOfContains(Without(links, link), c);
      ChannelsOfContains(links, c);
    }
  }

  /** True when `link` records the owner `(objectType, identifier)`. */
  predicate OwnedBy(link: CommunicationChannelOwnerLink, objectType: string, identifier: string)
    reads link
  {
    link.ownerObjectType == objectType && link.ownerIdentifier == identifier
  }

  /** The `findByOwner` query: the links whose owner type tag and identifier match, in table order. */
  function FindByOwner(links: seq<CommunicationChannelOwnerLink>, objectType: string, identifier: string)
    : (found: seq<CommunicationChannelOwnerLink>)
    reads links
    ensures |found| <= |links|
    ensures forall l :: l in found ==> l in links && OwnedBy(l, objectType, identifier)
    ensures forall l :: l in links && OwnedBy(l, objectType, identifier) ==> l in found
  {
    if links == [] then []
    else (if OwnedBy(links[0], objectType, identifier) then [links[0]] else [])
         + FindByOwner(links[1..], objectType, identifier)
  }

  /** The `findByCommunicationChannel` query: the links whose channel is `channel`, in table order. */
  function FindByCommunicationChannel(links: seq<CommunicationChannelOwnerLink>, channel: CommunicationChannel)
    : (found: seq<CommunicationChannelOwnerLink>)
    reads links
    ensures |found| <= |links|
    ensures forall l :: l in found ==> l in links && l.communicationChannel == channel
    ensures forall l :: l in links && l.communicationChannel == channel ==> l in found
  {
    if links == [] then []
    else (if links[0].communicationChannel == channel then [links[0]] else [])
         + FindByCommunicationChannel(links[1..], channel)
  }

  /** The repository lookup of the single link for a channel: the first match of the
      `findByCommunicationChannel` query, `None` when there is none. */
  function FindLinkByCommunicationChannel(links: seq<CommunicationChannelOwnerLink>, channel: CommunicationChannel)
    : (link: Option<CommunicationChannelOwnerLink>)
    reads links
    ensures link.Some? ==> link.value in links && link.value.communicationChannel == channel
    ensures link.None? <==> forall l :: l in links ==> l.communicationChannel != channel
  {
    var found := FindByCommunicationChannel(links, channel);
    if found == [] then None else Some(found[0])
  }

  /** Two links with the same (communicationChannel, ownerObjectType, ownerIdentifier). */
  predicate SameTriple(a: CommunicationChannelOwnerLink, b: CommunicationChannelOwnerLink)
    reads a, b
  {
    a.communicationChannel == b.communicationChannel && OwnedBy(b, a.ownerObjectType, a.ownerIdentifier)
  }

  /** The unique constraint: no link shares its triple with a later link of the table. */
  predicate UniqueTriples(links: seq<CommunicationChannelOwnerLink>)
    reads links
  {
    links == [] ||
    ((forall l :: l in links[1..] ==> !SameTriple(links[0], l)) && UniqueTriples(links[1..]))
  }

  /** Each channel appears in at most one link: a channel has at most one owner. */
  predicate SingleOwner(links: seq<CommunicationChannelOwnerLink>)
    reads links
  {
    links == [] ||
    ((forall l :: l in links[1..] ==> l.communicationChannel != links[0].communicationChannel)
     && SingleOwner(links[1..]))
  }

  /** The table without the row `link` (the effect of removing that row). */
  function Without(links: seq<CommunicationChannelOwnerLink>, link: CommunicationChannelOwnerLink)
    : (rest: seq<CommunicationChannelOwnerLink>)
    ensures |rest| <= |links|
    ensures forall l :: l in rest ==> l in links && l != link
    ensures forall l :: l in links && l != link ==> l in rest
  {
    if links == [] then []
    else (if links[0] == link then [] else [links[0]]) + Without(links[1..], link)
  }

  /** `findByOwner` keeps each matching row exactly as often as the table holds it, and no other
      row: the answer is the table's sub-multiset of the owner's rows. */
  lemma {:induction false} FindByOwnerCount(links: seq<CommunicationChannelOwnerLink>,
                                            objectType: string, identifier: string)
    ensures forall l :: multiset(FindByOwner(links, objectType, identifier))[l] ==
                        if OwnedBy(l, objectType, identifier) then multiset(links)[l] else 0
  {
    if links != [] {
      FindByOwnerCount(links[1..], objectType, identifier);
      assert links == [links[0]] + links[1..];
    }
  }

  /** `findByCommunicationChannel` keeps each row of the channel exactly as often as the table
      holds it, and no other row. */
  lemma {:induction false} FindByCommunicationChannelCount(links: seq<CommunicationChannelOwnerLink>,
                                                           channel: CommunicationChannel)
    ensures forall l :: multiset(FindByCommunicationChannel(links, channel))[l] ==
                        if l in links && l.communicationChannel == channel then multiset(links)[l] else 0
  {
    if links != [] {
      FindByCommunicationChannelCount(links[1..], channel);
      assert links == [links[0]] + links[1..];
    }
  }

  /** Removing a row drops every occurrence of it and keeps every other row as often as before. */
  lemma {:induction false} WithoutCount(links: seq<CommunicationChannelOwnerLink>,
                                        link: CommunicationChannelOwnerLink)
    ensures forall l :: multiset(Without(links, link))[l] == if l == link then 0 else multiset(links)[l]
  {
    if links != [] {
      WithoutCount(links[1..], link);
      assert links == [links[0]] + links[1..];
    }
  }

  /** The recursive form of the unique constraint says exactly that no two rows share a triple. */
  lemma {:induction false} UniqueTriplesMeans(links: seq<CommunicationChannelOwnerLink>)
    ensures UniqueTriples(links) <==>
            forall i, j :: 0 <= i < j < |links| ==> !SameTriple(links[i], links[j])
  {
    if links != [] {
      UniqueTriplesMeans(links[1..]);
      if UniqueTriples(links) {
        forall i, j | 0 <= i < j < |links| ensures !SameTriple(links[i], links[j]) {
          if i == 0 {
            assert links[j] in links[1..];
          } else {
            assert links[i] == links[1..][i - 1] && links[j] == links[1..][j - 1];
          }
        }
      }
      if forall i, j :: 0 <= i < j < |links| ==> !SameTriple(links[i], links[j]) {
        forall l | l in links[1..] ensures !SameTriple(links[0], l) {
          var k :| 0 <= k < |links[1..]| && links[1..][k] == l;
          assert l == links[k + 1];
        }
        forall i, j | 0 <= i < j < |links[1..]| ensures !SameTriple(links[1..][i], links[1..][j]) {
          assert links[1..][i] == links[i + 1] && links[1..][j] == links[j + 1];
        }
      }
    }
  }

  /** A table in which each channel has one owner satisfies the unique constraint. */
  lemma {:induction false} SingleOwnerIsUnique(links: seq<CommunicationChannelOwnerLink>)
    requires SingleOwner(links)
    ensures UniqueTriples(links)
  {
    if links != [] {
      SingleOwnerIsUnique(links[1..]);
    }
  }

  /** In a single-owner table, two rows with the same channel are the same row. */
  lemma {:induction false} SingleOwnerLinkIsUnique(links: seq<CommunicationChannelOwnerLink>,
                                                   a: CommunicationChannelOwnerLink,
                                                   b: CommunicationChannelOwnerLink)
    requires SingleOwner(links)
    requires a in links && b in links && a.communicationChannel == b.communicationChannel
    ensures a == b
  {
    assert forall l :: l in links ==> l == links[0] || l in links[1..];
    if a != links[0] && b != links[0] {
      SingleOwnerLinkIsUnique(links[1..], a, b);
    }
  }

  /** Under the unique constraint, at most one link answers both queries: the one for the
      triple (channel, objectType, identifier). */
  lemma {:induction false} AtMostOneLinkPerTriple(links: seq<CommunicationChannelOwnerLink>,
                                                  channel: CommunicationChannel,
                                                  objectType: string, identifier: string,
                                                  a: CommunicationChannelOwnerLink,
                                                  b: CommunicationChannelOwnerLink)
    requires UniqueTriples(links)
    requires a in FindByOwner(links, objectType, identifier) && a in FindByCommunicationChannel(links, channel)
    requires b in FindByOwner(links, objectType, identifier) && b in FindByCommunicationChannel(links, channel)
    ensures a == b
  {
    UniqueTriplesMeans(links);
    var i :| 0 <= i < |links| && links[i] == a;
    var j :| 0 <= j < |links| && links[j] == b;
    assert SameTriple(links[i], links[j]) && SameTriple(links[j], links[i]);
  }

  /** Under the unique constraint, the links found for one owner name pairwise different channels. */
  lemma {:induction false} OwnerLinksHaveDistinctChannels(links: seq<CommunicationChannelOwnerLink>,
                                                          objectType: string, identifier: string,
                                                          a: CommunicationChannelOwnerLink,
                                                          b: CommunicationChannelOwnerLink)
    requires UniqueTriples(links)
    requires a in FindByOwner(links, objectType, identifier) && b in FindByOwner(links, objectType, identifier)
    requires a != b
    ensures a.communicationChannel != b.communicationChannel
  {
    if a.communicationChannel == b.communicationChannel {
      AtMostOneLinkPerTriple(links, a.communicationChannel, objectType, identifier, a, b);
    }
  }

  /** Appending a row appends it to the owner query exactly when it belongs to that owner. */
  lemma {:induction false} FindByOwnerAppend(links: seq<CommunicationChannelOwnerLink>,
                                             link: CommunicationChannelOwnerLink,
                                             objectType: string, identifier: string)
    ensures FindByOwner(links + [link], objectType, identifier)
         == FindByOwner(links, objectType, identifier)
            + (if OwnedBy(link, objectType, identifier) then [link] else [])
  {
    if links == [] {
      assert [link][1..] == [];
    } else {
      assert (links + [link])[1..] == links[1..] + [link];
      FindByOwnerAppend(links[1..], link, objectType, identifier);
    }
  }

  /** The owner query on a table split into its first row and the rest. */
  lemma FindByOwnerCons(head: CommunicationChannelOwnerLink, tail: seq<CommunicationChannelOwnerLink>,
                        objectType: string, identifier: string)
    ensures FindByOwner([head] + tail, objectType, identifier)
         == (if OwnedBy(head, objectType, identifier) then [head] else [])
            + FindByOwner(tail, objectType, identifier)
  {
    assert ([head] + tail)[1..] == tail;
  }

  /** Row removal on a table split into its first row and the rest. */
  lemma WithoutCons(head: CommunicationChannelOwnerLink, tail: seq<CommunicationChannelOwnerLink>,
                    link: CommunicationChannelOwnerLink)
    ensures Without([head] + tail, link) == (if head == link then [] else [head]) + Without(tail, link)
  {
    assert ([head] + tail)[1..] == tail;
  }

  /** Removing a row removes it from the owner query and leaves the rest of the answer in order. */
  lemma {:induction false} FindByOwnerWithout(links: seq<CommunicationChannelOwnerLink>,
                                              link: CommunicationChannelOwnerLink,
                                              objectType: string, identifier: string)
    ensures FindByOwner(Without(links, link), objectType, identifier)
         == Without(FindByOwner(links, objectType, identifier), link)
  {
    if links != [] {
      var head, tail := links[0], links[1..];
      FindByOwnerWithout(tail, link, objectType, identifier);
      var found := FindByOwner(tail, objectType, identifier);
      assert links == [head] + tail;
      FindByOwnerCons(head, tail, objectType, identifier);
      WithoutCons(head, tail, link);
      if head == link {
        assert Without(links, link) == Without(tail, link);
        if OwnedBy(head, objectType, identifier) {
          WithoutCons(head, found, link);
        } else {
          assert FindByOwner(links, objectType, identifier) == found;
        }
      } else {
        FindByOwnerCons(head, Without(tail, link), objectType, identifier);
        if OwnedBy(head, objectType, identifier) {
          WithoutCons(head, found, link);
        } else {
          assert FindByOwner(links, objectType, identifier) == found;
          assert FindByOwner(Without(links, link), objectType, identifier)
              == FindByOwner(Without(tail, link), objectType, identifier);
        }
      }
    }
  }

  /** Removing a row that does not belong to an owner leaves that owner's answer unchanged. */
  lemma {:induction false} WithoutOtherOwner(links: seq<CommunicationChannelOwnerLink>,
                                             link: CommunicationChannelOwnerLink,
                                             objectType: string, identifier: string)
    requires !OwnedBy(link, objectType, identifier)
    ensures FindByOwner(Without(links, link), objectType, identifier) == FindByOwner(links, objectType, identifier)
  {
    if links != [] {
      var head, tail := links[0], links[1..];
      WithoutOtherOwner(tail, link, objectType, identifier);
      assert links == [head] + tail;
      FindByOwnerCons(head, tail, objectType, identifier);
      WithoutCons(head, tail, link);
      if head != link {
        FindByOwnerCons(head, Without(tail, link), objectType, identifier);
      } else {
        assert Without(links, link) == Without(tail, link);
        assert FindByOwner(links, objectType, identifier) == FindByOwner(tail, objectType, identifier);
      }
    }
  }

  /** Removing a row is idempotent: a second removal changes nothing. */
  lemma {:induction false} WithoutIdempotent(links: seq<CommunicationChannelOwnerLink>,
                                             link: CommunicationChannelOwnerLink)
    ensures Without(Without(links, link), link) == Without(links, link)
  {
    if links != [] {
      WithoutIdempotent(links[1..], link);
      if links[0] != link {
        assert Without(links, link) == [links[0]] + Without(links[1..], link);
        WithoutCons(links[0], Without(links[1..], link), link);
      } else {
        assert Without(links, link) == Without(links[1..], link);
      }
    }
  }

  /** Removing a row that is not in the table leaves the table as it is. */
  lemma {:induction false} WithoutAbsent(links: seq<CommunicationChannelOwnerLink>,
                                         link: CommunicationChannelOwnerLink)
    requires link !in links
    ensures Without(links, link) == links
  {
    if links != [] {
      assert links[0] != link;
      WithoutAbsent(links[1..], link);
      assert links == [links[0]] + links[1..];
    }
  }

  /** Removing a row keeps the table single-owner. */
  lemma {:induction false} WithoutKeepsSingleOwner(links: seq<CommunicationChannelOwnerLink>,
                                                   link: CommunicationChannelOwnerLink)
    requires SingleOwner(links)
    ensures SingleOwner(Without(links, link))
  {
    if links != [] {
      WithoutKeepsSingleOwner(links[1..], link);
      var rest := Without(links[1..], link);
      if links[0] != link {
        assert Without(links, link) == [links[0]] + rest;
        assert ([links[0]] + rest)[1..] == rest;
      } else {
        assert Without(links, link) == rest;
      }
    }
  }

  /** Appending a row whose channel has no row yet keeps the table single-owner. */
  lemma {:induction false} AppendKeepsSingleOwner(links: seq<CommunicationChannelOwnerLink>,
                                                  link: CommunicationChannelOwnerLink)
    requires SingleOwner(links)
    requires forall l :: l in links ==> l.communicationChannel != link.communicationChannel
    ensures SingleOwner(links + [link])
  {
    if links == [] {
      assert [link][1..] == [];
    } else {
      assert (links + [link])[1..] == links[1..] + [link];
      AppendKeepsSingleOwner(links[1..], link);
    }
  }
}
