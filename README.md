# Polymorphic link fixture in Dafny

This project models the fixture domain of the polymorphic-association-link
add-on. In a polymorphic link, one entity (the *subject*) refers to an object of
any type (the *polymorphic reference*). The link stores the target's object
type tag and identifier instead of a foreign key. Two link kinds are modelled:

- `CommunicationChannelOwnerLink`: a communication channel points at its owner.
- `CaseContentLink`: a case points at one of its contents.

The model also covers the owner-side actions of `Party`. These actions derive a
party's channel list from the link table, validate and add a channel together
with its link, and remove a channel together with its link.

- `wrappers.dfy`: `Option`. `None` stands for the `null` that validators and
  lookups return.
- `comms.dfy` (module `Comms`): the communication channel value, the mutable
  `CommunicationChannelOwnerLink` record with its field setters and generic alias
  accessors, the two queries as filter functions, the unique constraint, and
  lemmas on how the queries behave when the table is appended to or a row is
  removed.
- `persistence.dfy` (module `Persistence`): the persistent store as a class.
  It holds the link table (a `seq` of links), the set of persisted channels, and
  the next datastore identity. `Valid()` holds the unique constraint, the column
  lengths, the foreign key from each link to a persisted channel, and one owner
  per channel. Its methods are the store effects used by the party:
  - persisting a channel;
  - creating a link;
  - `removeIfNotAlready` for a link and for a channel.
- `casemgmt.dfy` (module `CaseMgmt`): the mutable `CaseContentLink` record, its
  queries, and lemmas on its unique constraint.
- `parties.dfy` (module `Parties`): the `Party` class. It holds its name, its
  bookmark identifier and a reference to the store. Queries are functions over
  the store. `addCommunicationChannel`, `removeCommunicationChannel` and
  `updateName` are methods whose contracts give the new state. The
  duplicate-details search is a loop proved against an existential
  specification. Module `PartyScenario` is a verified client that adds a
  channel, is refused a duplicate, and removes the channel.

A party appears in link rows as the type tag `"PARTY"` plus its bookmark
identifier. `findByOwner(this)` is the owner query applied to that pair.

Every link is created by `addCommunicationChannel` for a channel it has just
persisted. So in every store the model's operations build, each channel has at
most one link. `Store.Valid()` records this "single owner" property. It is an
assumption of the model about how links come into being, not a datastore
guarantee. The datastore's unique constraint covers the whole triple (channel,
owner type tag, owner identifier), so it would accept a second owner for a
channel. Three results depend on the single-owner property:

- the foreign key still holds after `removeCommunicationChannel` deletes the channel;
- `validate0RemoveCommunicationChannel` agrees with `choices0RemoveCommunicationChannel`;
- the lookup that returns one link per channel is unambiguous.

`Store.CreateLink` requires that the channel has no link yet. That
precondition, not the unique constraint, is what rules out a second link for a
channel. The queries return sequences in table order.

## Model

| member | source | states |
|---|---|---|
| `Comms.CommunicationChannelOwnerLink.constructor` | fixture/src/main/java/org/isisaddons/module/poly/fixture/dom/modules/comms/CommunicationChannelOwnerLink.java:63-65 | a new link holds exactly the given channel, owner type tag and owner identifier (all three present); the new link fits its columns exactly when both strings are at most 255 characters long |
| `Comms.CommunicationChannelOwnerLink.ColumnsValid` | fixture/src/main/java/org/isisaddons/module/poly/fixture/dom/modules/comms/CommunicationChannelOwnerLink.java:124-140 | a link fits its columns exactly when the values returned by `getOwnerObjectType()` and `getOwnerIdentifier()` are at most 255 characters long; the constructor and every setter state whether the link fits its columns afterwards |
| `Comms.CommunicationChannelOwnerLink.GetCommunicationChannel` | fixture/src/main/java/org/isisaddons/module/poly/fixture/dom/modules/comms/CommunicationChannelOwnerLink.java:112-114 | returns the stored `communicationChannel` column, the value the constructor, `setCommunicationChannel` and `setSubject` establish |
| `Comms.CommunicationChannelOwnerLink.GetOwnerObjectType` | fixture/src/main/java/org/isisaddons/module/poly/fixture/dom/modules/comms/CommunicationChannelOwnerLink.java:125-127 | returns the stored `ownerObjectType` column |
| `Comms.CommunicationChannelOwnerLink.GetOwnerIdentifier` | fixture/src/main/java/org/isisaddons/module/poly/fixture/dom/modules/comms/CommunicationChannelOwnerLink.java:138-140 | returns the stored `ownerIdentifier` column |
| `Comms.CommunicationChannelOwnerLink.SetCommunicationChannel` | fixture/src/main/java/org/isisaddons/module/poly/fixture/dom/modules/comms/CommunicationChannelOwnerLink.java:116-118 | afterwards `getCommunicationChannel()` returns the new channel; `ownerObjectType` and `ownerIdentifier` keep their values; whether the link fits its columns is unchanged |
| `Comms.CommunicationChannelOwnerLink.SetOwnerObjectType` | fixture/src/main/java/org/isisaddons/module/poly/fixture/dom/modules/comms/CommunicationChannelOwnerLink.java:129-131 | afterwards `getOwnerObjectType()` returns the new tag; the channel and `ownerIdentifier` keep their values; the link fits its columns exactly when the new tag and the kept identifier are at most 255 characters long |
| `Comms.CommunicationChannelOwnerLink.SetOwnerIdentifier` | fixture/src/main/java/org/isisaddons/module/poly/fixture/dom/modules/comms/CommunicationChannelOwnerLink.java:142-144 | afterwards `getOwnerIdentifier()` returns the new identifier; the channel and `ownerObjectType` keep their values; the link fits its columns exactly when the kept tag and the new identifier are at most 255 characters long |
| `Comms.CommunicationChannelOwnerLink.GetSubject` | fixture/src/main/java/org/isisaddons/module/poly/fixture/dom/modules/comms/CommunicationChannelOwnerLink.java:71-74 | the generic subject is the `communicationChannel` field |
| `Comms.CommunicationChannelOwnerLink.SetSubject` | fixture/src/main/java/org/isisaddons/module/poly/fixture/dom/modules/comms/CommunicationChannelOwnerLink.java:76-79 | after `setSubject(c)` both `getSubject()` and `getCommunicationChannel()` return `c`; the other two fields keep their values; whether the link fits its columns is unchanged |
| `Comms.CommunicationChannelOwnerLink.GetPolymorphicObjectType` | fixture/src/main/java/org/isisaddons/module/poly/fixture/dom/modules/comms/CommunicationChannelOwnerLink.java:83-86 | the generic type tag is the `ownerObjectType` field |
| `Comms.CommunicationChannelOwnerLink.SetPolymorphicObjectType` | fixture/src/main/java/org/isisaddons/module/poly/fixture/dom/modules/comms/CommunicationChannelOwnerLink.java:88-91 | after `setPolymorphicObjectType(t)` both the generic getter and `getOwnerObjectType()` return `t`; the other two fields keep their values; the link fits its columns exactly when the new tag and the kept identifier are at most 255 characters long |
| `Comms.CommunicationChannelOwnerLink.GetPolymorphicIdentifier` | fixture/src/main/java/org/isisaddons/module/poly/fixture/dom/modules/comms/CommunicationChannelOwnerLink.java:95-98 | the generic identifier is the `ownerIdentifier` field |
| `Comms.CommunicationChannelOwnerLink.SetPolymorphicIdentifier` | fixture/src/main/java/org/isisaddons/module/poly/fixture/dom/modules/comms/CommunicationChannelOwnerLink.java:100-103 | after `setPolymorphicIdentifier(i)` both the generic getter and `getOwnerIdentifier()` return `i`; the other two fields keep their values; the link fits its columns exactly when the kept tag and the new identifier are at most 255 characters long |
| `Comms.GetCommunicationChannelOf` | fixture/src/main/java/org/isisaddons/module/poly/fixture/dom/modules/comms/CommunicationChannelOwnerLink.java:148-153 | `GET_COMMUNICATION_CHANNEL` yields the link's channel, which is also its subject |
| `Comms.ChannelsOf` | fixture/src/main/java/org/isisaddons/module/poly/fixture/dom/modules/party/Party.java:126-128 | transforming a link list by `GET_COMMUNICATION_CHANNEL` keeps its length and order: element i is the channel of link i |
| `Comms.ChannelsOfContains` | fixture/src/main/java/org/isisaddons/module/poly/fixture/dom/modules/party/Party.java:126-128 | a channel is in the transformed list exactly when some link of the list refers to it |
| `Comms.ChannelsOfAppend` | fixture/src/main/java/org/isisaddons/module/poly/fixture/dom/modules/party/Party.java:126-128 | the transform of a list with one more link is the old transform with that link's channel appended |
| `Comms.ChannelsOfWithout` | fixture/src/main/java/org/isisaddons/module/poly/fixture/dom/modules/party/Party.java:170-171 | removing the only link of a channel from a list removes exactly that channel from the transformed list |
| `Comms.FindByOwner` | fixture/src/main/java/org/isisaddons/module/poly/fixture/dom/modules/comms/CommunicationChannelOwnerLink.java:40-45 | `findByOwner` returns the links whose `ownerObjectType` and `ownerIdentifier` equal the arguments, and every such link of the table, in no more rows than the table (how often each row appears: `Comms.FindByOwnerCount`) |
| `Comms.FindByOwnerCount` | fixture/src/main/java/org/isisaddons/module/poly/fixture/dom/modules/comms/CommunicationChannelOwnerLink.java:40-45 | `findByOwner` holds each row of the owner exactly as many times as the table does, and no other row |
| `Comms.FindByCommunicationChannel` | fixture/src/main/java/org/isisaddons/module/poly/fixture/dom/modules/comms/CommunicationChannelOwnerLink.java:35-39 | `findByCommunicationChannel` returns the links whose channel is the argument, and every such link of the table (how often each row appears: `Comms.FindByCommunicationChannelCount`) |
| `Comms.FindByCommunicationChannelCount` | fixture/src/main/java/org/isisaddons/module/poly/fixture/dom/modules/comms/CommunicationChannelOwnerLink.java:35-39 | `findByCommunicationChannel` holds each row of the channel exactly as many times as the table does, and no other row |
| `Comms.FindLinkByCommunicationChannel` | fixture/src/main/java/org/isisaddons/module/poly/fixture/dom/modules/party/Party.java:167 | the single-link lookup for a channel returns a link of the table with that channel, and returns null exactly when no link has it |
| `Comms.Without` | fixture/src/main/java/org/isisaddons/module/poly/fixture/dom/modules/party/Party.java:170 | removing a link row leaves the other rows and only them (how often each row appears: `Comms.WithoutCount`) |
| `Comms.WithoutCount` | fixture/src/main/java/org/isisaddons/module/poly/fixture/dom/modules/party/Party.java:170 | removing a row drops every occurrence of it and keeps every other row as many times as before |
| `Comms.UniqueTriplesMeans` | fixture/src/main/java/org/isisaddons/module/poly/fixture/dom/modules/comms/CommunicationChannelOwnerLink.java:47 | the unique constraint holds exactly when no two rows share (communicationChannel, ownerObjectType, ownerIdentifier) |
| `Comms.SingleOwnerIsUnique` | fixture/src/main/java/org/isisaddons/module/poly/fixture/dom/modules/comms/CommunicationChannelOwnerLink.java:47 | a table in which every channel has at most one link satisfies the unique constraint |
| `Comms.SingleOwnerLinkIsUnique` | fixture/src/main/java/org/isisaddons/module/poly/fixture/dom/modules/party/Party.java:165-169 | when every channel has one owner, two links of the same channel are the same link, so the link found for a channel is its only one |
| `Comms.AtMostOneLinkPerTriple` | fixture/src/main/java/org/isisaddons/module/poly/fixture/dom/modules/comms/CommunicationChannelOwnerLink.java:47 | under the unique constraint at most one link answers both `findByOwner(t, i)` and `findByCommunicationChannel(c)` |
| `Comms.OwnerLinksHaveDistinctChannels` | fixture/src/main/java/org/isisaddons/module/poly/fixture/dom/modules/comms/CommunicationChannelOwnerLink.java:47 | under the unique constraint the links found for one owner refer to pairwise different channels |
| `Comms.FindByOwnerAppend` | fixture/src/main/java/org/isisaddons/module/poly/fixture/dom/modules/party/Party.java:143 | adding a link appends it to the answer of `findByOwner` for its own owner and leaves every other owner's answer as it was |
| `Comms.FindByOwnerWithout` | fixture/src/main/java/org/isisaddons/module/poly/fixture/dom/modules/party/Party.java:170 | removing a link removes it from every `findByOwner` answer and keeps the rest in order |
| `Comms.WithoutOtherOwner` | fixture/src/main/java/org/isisaddons/module/poly/fixture/dom/modules/party/Party.java:170 | removing a link of one owner leaves the `findByOwner` answer of every other owner unchanged |
| `Comms.WithoutIdempotent` | fixture/src/main/java/org/isisaddons/module/poly/fixture/dom/modules/party/Party.java:170 | removing a link twice has the same effect as removing it once |
| `Comms.WithoutAbsent` | fixture/src/main/java/org/isisaddons/module/poly/fixture/dom/modules/party/Party.java:170 | removing a link that is not in the table changes nothing |
| `Comms.WithoutKeepsSingleOwner` | fixture/src/main/java/org/isisaddons/module/poly/fixture/dom/modules/party/Party.java:170 | removing a link keeps every channel at one owner at most |
| `Comms.AppendKeepsSingleOwner` | fixture/src/main/java/org/isisaddons/module/poly/fixture/dom/modules/party/Party.java:143 | linking a channel that has no link yet keeps every channel at one owner at most |
| `Persistence.Store.PersistChannel` | fixture/src/main/java/org/isisaddons/module/poly/fixture/dom/modules/party/Party.java:138-141 | a new channel with the given details and an identity that no persisted channel has joins the persisted channels; the link table is unchanged; the store stays valid |
| `Persistence.Store.CreateLink` | fixture/src/main/java/org/isisaddons/module/poly/fixture/dom/modules/party/Party.java:143 | one fresh link from the channel to the given owner is appended to the table; channels unchanged; the unique constraint, column lengths and foreign key still hold |
| `Persistence.Store.RemoveLinkIfNotAlready` | fixture/src/main/java/org/isisaddons/module/poly/fixture/dom/modules/party/Party.java:170 | the table loses exactly that link, or stays as it is when the link is already gone; channels unchanged |
| `Persistence.Store.RemoveChannelIfNotAlready` | fixture/src/main/java/org/isisaddons/module/poly/fixture/dom/modules/party/Party.java:171 | the channel leaves the persisted set, or the set stays as it is when it is already gone; links unchanged |
| `CaseMgmt.CaseContentLink.constructor` | fixture/src/main/java/org/isisaddons/module/poly/fixture/dom/modules/casemgmt/CaseContentLink.java:63-65 | a new link holds exactly the given case, content type tag and content identifier; the new link fits its columns exactly when both strings are at most 255 characters long |
| `CaseMgmt.CaseContentLink.ColumnsValid` | fixture/src/main/java/org/isisaddons/module/poly/fixture/dom/modules/casemgmt/CaseContentLink.java:125-141 | a link fits its columns exactly when the values returned by `getContentObjectType()` and `getContentIdentifier()` are at most 255 characters long; the constructor and every setter state whether the link fits its columns afterwards |
| `CaseMgmt.CaseContentLink.GetCase` | fixture/src/main/java/org/isisaddons/module/poly/fixture/dom/modules/casemgmt/CaseContentLink.java:113-115 | returns the stored case column, the value the constructor, `setCase` and `setSubject` establish |
| `CaseMgmt.CaseContentLink.GetContentObjectType` | fixture/src/main/java/org/isisaddons/module/poly/fixture/dom/modules/casemgmt/CaseContentLink.java:126-128 | returns the stored `contentObjectType` column |
| `CaseMgmt.CaseContentLink.GetContentIdentifier` | fixture/src/main/java/org/isisaddons/module/poly/fixture/dom/modules/casemgmt/CaseContentLink.java:139-141 | returns the stored `contentIdentifier` column |
| `CaseMgmt.CaseContentLink.SetCase` | fixture/src/main/java/org/isisaddons/module/poly/fixture/dom/modules/casemgmt/CaseContentLink.java:117-119 | afterwards `getCase()` returns the new case; `contentObjectType` and `contentIdentifier` keep their values; whether the link fits its columns is unchanged |
| `CaseMgmt.CaseContentLink.SetContentObjectType` | fixture/src/main/java/org/isisaddons/module/poly/fixture/dom/modules/casemgmt/CaseContentLink.java:130-132 | afterwards `getContentObjectType()` returns the new tag; the case and `contentIdentifier` keep their values; the link fits its columns exactly when the new tag and the kept identifier are at most 255 characters long |
| `CaseMgmt.CaseContentLink.SetContentIdentifier` | fixture/src/main/java/org/isisaddons/module/poly/fixture/dom/modules/casemgmt/CaseContentLink.java:143-145 | afterwards `getContentIdentifier()` returns the new identifier; the case and `contentObjectType` keep their values; the link fits its columns exactly when the kept tag and the new identifier are at most 255 characters long |
| `CaseMgmt.CaseContentLink.GetSubject` | fixture/src/main/java/org/isisaddons/module/poly/fixture/dom/modules/casemgmt/CaseContentLink.java:71-74 | the generic subject is the case field |
| `CaseMgmt.CaseContentLink.SetSubject` | fixture/src/main/java/org/isisaddons/module/poly/fixture/dom/modules/casemgmt/CaseContentLink.java:76-79 | after `setSubject(k)` both `getSubject()` and `getCase()` return `k`; the other two fields keep their values; whether the link fits its columns is unchanged |
| `CaseMgmt.CaseContentLink.GetPolymorphicObjectType` | fixture/src/main/java/org/isisaddons/module/poly/fixture/dom/modules/casemgmt/CaseContentLink.java:83-86 | the generic type tag is the `contentObjectType` field |
| `CaseMgmt.CaseContentLink.SetPolymorphicObjectType` | fixture/src/main/java/org/isisaddons/module/poly/fixture/dom/modules/casemgmt/CaseContentLink.java:88-91 | after `setPolymorphicObjectType(t)` both the generic getter and `getContentObjectType()` return `t`; the other two fields keep their values; the link fits its columns exactly when the new tag and the kept identifier are at most 255 characters long |
| `CaseMgmt.CaseContentLink.GetPolymorphicIdentifier` | fixture/src/main/java/org/isisaddons/module/poly/fixture/dom/modules/casemgmt/CaseContentLink.java:95-98 | the generic identifier is the `contentIdentifier` field |
| `CaseMgmt.CaseContentLink.SetPolymorphicIdentifier` | fixture/src/main/java/org/isisaddons/module/poly/fixture/dom/modules/casemgmt/CaseContentLink.java:100-103 | after `setPolymorphicIdentifier(i)` both the generic getter and `getContentIdentifier()` return `i`; the other two fields keep their values; the link fits its columns exactly when the kept tag and the new identifier are at most 255 characters long |
| `CaseMgmt.GetCaseOf` | fixture/src/main/java/org/isisaddons/module/poly/fixture/dom/modules/casemgmt/CaseContentLink.java:149-154 | `GET_CASE` yields the link's subject, which is its case |
| `CaseMgmt.FindByCase` | fixture/src/main/java/org/isisaddons/module/poly/fixture/dom/modules/casemgmt/CaseContentLink.java:36-40 | `findByCase` returns the links whose case is the argument, and every such link of the table (how often each row appears: `CaseMgmt.FindByCaseCount`) |
| `CaseMgmt.FindByCaseCount` | fixture/src/main/java/org/isisaddons/module/poly/fixture/dom/modules/casemgmt/CaseContentLink.java:36-40 | `findByCase` holds each row of the case exactly as many times as the table does, and no other row |
| `CaseMgmt.FindByContent` | fixture/src/main/java/org/isisaddons/module/poly/fixture/dom/modules/casemgmt/CaseContentLink.java:41-46 | `findByContent` returns the links whose `contentObjectType` and `contentIdentifier` equal the arguments, and every such link of the table (how often each row appears: `CaseMgmt.FindByContentCount`) |
| `CaseMgmt.FindByContentCount` | fixture/src/main/java/org/isisaddons/module/poly/fixture/dom/modules/casemgmt/CaseContentLink.java:41-46 | `findByContent` holds each row of the content exactly as many times as the table does, and no other row |
| `CaseMgmt.UniqueTriplesMeans` | fixture/src/main/java/org/isisaddons/module/poly/fixture/dom/modules/casemgmt/CaseContentLink.java:48 | the unique constraint holds exactly when no two rows share (case, contentObjectType, contentIdentifier) |
| `CaseMgmt.UniqueTriplesDistinct` | fixture/src/main/java/org/isisaddons/module/poly/fixture/dom/modules/casemgmt/CaseContentLink.java:48 | under the unique constraint two rows with the same (case, contentObjectType, contentIdentifier) are the same row |
| `CaseMgmt.AtMostOneLinkPerTriple` | fixture/src/main/java/org/isisaddons/module/poly/fixture/dom/modules/casemgmt/CaseContentLink.java:48 | under the unique constraint at most one link answers both `findByCase(k)` and `findByContent(t, i)` |
| `CaseMgmt.ContentLinksHaveDistinctCases` | fixture/src/main/java/org/isisaddons/module/poly/fixture/dom/modules/casemgmt/CaseContentLink.java:48 | under the unique constraint the links found for one content refer to pairwise different cases |
| `CaseMgmt.CaseLinksHaveDistinctContents` | fixture/src/main/java/org/isisaddons/module/poly/fixture/dom/modules/casemgmt/CaseContentLink.java:48 | under the unique constraint the links found for one case refer to pairwise different contents |
| `Parties.CompareNames` | fixture/src/main/java/org/isisaddons/module/poly/fixture/dom/modules/party/Party.java:204-206 | the name comparison is -1, 0 or 1, and 0 exactly when the names are equal |
| `Parties.CompareNamesAntisymmetric` | fixture/src/main/java/org/isisaddons/module/poly/fixture/dom/modules/party/Party.java:204-206 | comparing the other way round negates the result |
| `Parties.CompareNamesTransitive` | fixture/src/main/java/org/isisaddons/module/poly/fixture/dom/modules/party/Party.java:204-206 | "orders before" on names is transitive |
| `Parties.Party.CompareTo` | fixture/src/main/java/org/isisaddons/module/poly/fixture/dom/modules/party/Party.java:204-206 | parties compare by name alone: -1, 0 or 1, and 0 exactly when the names are equal |
| `Parties.Party.SetName` | fixture/src/main/java/org/isisaddons/module/poly/fixture/dom/modules/party/Party.java:96-98 | afterwards the name is the argument |
| `Parties.Party.UpdateName` | fixture/src/main/java/org/isisaddons/module/poly/fixture/dom/modules/party/Party.java:104-110 | the name becomes the argument (at most 40 characters), nothing else changes, the party itself is returned, and the offered default is then the new name |
| `Parties.Party.Default0UpdateName` | fixture/src/main/java/org/isisaddons/module/poly/fixture/dom/modules/party/Party.java:112-114 | the default offered is the current name, and it is itself a valid argument (at most 40 characters) |
| `Parties.Party.OwnerLinks` | fixture/src/main/java/org/isisaddons/module/poly/fixture/dom/modules/party/Party.java:124-125 | `findByOwner(this)` answers exactly the links of the table that record `("PARTY", identifier)` as their owner |
| `Parties.Party.GetCommunicationChannels` | fixture/src/main/java/org/isisaddons/module/poly/fixture/dom/modules/party/Party.java:123-129 | the party's channels are the channels of the links returned by `findByOwner(this)`, same length, same order |
| `Parties.OwnedChannelsAppend` | fixture/src/main/java/org/isisaddons/module/poly/fixture/dom/modules/party/Party.java:143 | appending a link that records the party as owner appends exactly its channel to the party's derived channel list |
| `Parties.Party.OwnsChannel` | fixture/src/main/java/org/isisaddons/module/poly/fixture/dom/modules/party/Party.java:123-129 | a channel is among the party's channels exactly when some link of the table records this party as its owner |
| `Parties.Party.Validate0AddCommunicationChannel` | fixture/src/main/java/org/isisaddons/module/poly/fixture/dom/modules/party/Party.java:147-156 | "Already have a communication channel with those details" exactly when some owned channel has those details, otherwise null |
| `Parties.Party.AddCommunicationChannel` | fixture/src/main/java/org/isisaddons/module/poly/fixture/dom/modules/party/Party.java:134-145 | exactly one new channel with the given details is persisted and exactly one fresh link from it to this party is appended; the party's channel list gains exactly that channel at the end; the party is returned; the new channel's identity differs from that of every channel persisted before |
| `Parties.Party.LinkChannel` | fixture/src/main/java/org/isisaddons/module/poly/fixture/dom/modules/party/Party.java:143 | linking a persisted, not yet linked channel to this party appends one fresh owned link, leaves the channels as they are, and puts the channel at the end of the party's channel list; only the link table changes |
| `Parties.Party.DisableRemoveCommunicationChannel` | fixture/src/main/java/org/isisaddons/module/poly/fixture/dom/modules/party/Party.java:177-181 | "Does not own a communication channel" exactly when the party has no channel, otherwise null |
| `Parties.Party.Validate0RemoveCommunicationChannel` | fixture/src/main/java/org/isisaddons/module/poly/fixture/dom/modules/party/Party.java:182-187 | null only for a channel among the party's channels; otherwise "Not a communication channel of this party" |
| `Parties.Party.Choices0RemoveCommunicationChannel` | fixture/src/main/java/org/isisaddons/module/poly/fixture/dom/modules/party/Party.java:189-195 | the choices offered are exactly the party's channels |
| `Parties.Party.RemoveGuardsAgree` | fixture/src/main/java/org/isisaddons/module/poly/fixture/dom/modules/party/Party.java:182-195 | in a valid store a channel passes `validate0RemoveCommunicationChannel` exactly when it is one of the choices |
| `Parties.Party.DisableAgreesWithValidate` | fixture/src/main/java/org/isisaddons/module/poly/fixture/dom/modules/party/Party.java:177-187 | in a valid store the action is disabled exactly when no channel would pass its validation |
| `Parties.Party.RemoveCommunicationChannel` | fixture/src/main/java/org/isisaddons/module/poly/fixture/dom/modules/party/Party.java:162-175 | when the channel's link is among `findByOwner(this)`, that link and then the channel are removed, no link refers to the channel afterwards, and the party's channel list loses exactly that channel; otherwise links and channels are unchanged; the party is returned; only the link table and the channels change |
| `Parties.Party.RemoveLinkAndChannel` | fixture/src/main/java/org/isisaddons/module/poly/fixture/dom/modules/party/Party.java:170-171 | removing this party's link and then its channel leaves the table without that link, the channels without that channel, no link referring to it, and the party's list without exactly that channel; only the link table and the channels change |
| `Parties.Party.DetachLink` | fixture/src/main/java/org/isisaddons/module/poly/fixture/dom/modules/party/Party.java:170 | removing this party's link for a channel leaves no link for that channel and drops exactly that channel from the party's list; only the link table changes |

## Left out

- The fixture script that creates cases is not modelled. It only passes parameters on to framework services.
- Persistence plumbing is reduced to `Store.PersistChannel`: creating a transient instance, persisting, flushing, datastore identity and version columns, inheritance mapping and transactions.
- `Persistence.Store.CreateLink` models only the visible effect of the link repository's `createLink`, which is not part of this model: one new row from the channel to the owner's type tag and identifier.
- `Persistence.Store.CreateLink` requires that the channel has no link yet. This is stronger than the datastore's unique constraint, which covers the whole triple and allows one channel to be linked to two different owners. Stores in which a channel has two owners are outside the model.
- `Parties.Party.RemoveGuardsAgree` holds only in single-owner stores. In a store where a channel also has a link to another owner, the single-link lookup can return that other owner's link. `validate0RemoveCommunicationChannel` then rejects a channel that `choices0RemoveCommunicationChannel` offers.
- Resolving a type tag and identifier back to an object is not modelled. This covers `getPolymorphicReference`, `Functions.GET_CONTENT` and the bookmark lookup inside `findByOwner(Party)`. They live in the add-on's base link class and the link repository, which are not part of this model.
- The instantiate-event classes, the title templates, `title()`, translation and all layout annotations are framework wiring, so they are left out.
- `CommunicationChannel.java` and `Case.java` are not part of this model. A channel is a value made of its datastore identity and its details. A case is its identity. Changing a channel's details after it has been added is not modelled.
- `Parties.Party.UpdateName`: the unique constraint on a party's name spans all parties and is checked by the datastore at commit. The model has no collection of parties, so it is not modelled. The 40-character length limit is modelled, but the model counts Unicode scalar values (Dafny characters), while Java's `maxLength` counts UTF-16 code units. A name of 40 characters outside the Basic Multilingual Plane is therefore accepted by the model but refused by the framework, which counts 80 units.
- `Comms.CommunicationChannelOwnerLink.ColumnsValid`: the 255-character column bound counts Unicode scalar values. The unit the datastore counts depends on the database, and it may be UTF-16 code units or bytes. A value with characters outside the Basic Multilingual Plane can therefore fit the model's bound but not the column.
- `CaseMgmt.CaseContentLink.ColumnsValid`: the same holds for the case link's 255-character columns.
- `Parties.Party.CompareTo`: the reflection inside the framework's comparison helper is replaced by a comparison of names only. Characters are compared as Unicode scalar values, while Java compares UTF-16 code units. The two orders differ only between supplementary characters and code points U+E000 to U+FFFF.
- `Parties.Party.AddCommunicationChannel`: Java returns only the party. The ghost out-parameter `channel` only names the new channel for the contract.
- Java links can hold `null` fields between construction and the setters. In the model a link is always built with all three values, because the columns forbid `null`.
- The queries in the source have no ordering clause. The model returns matches in table order.
- The link repository's single-link lookup by channel is not part of this model. `Comms.FindLinkByCommunicationChannel` models it as the first match of the query, and as `None` when there is no match.
