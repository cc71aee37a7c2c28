/**
 * The case-management side of the polymorphic link: a link from a case (the
 * subject) to one of its contents, which is recorded as a type tag plus an
 * identifier instead of a direct reference.
 */
module CaseMgmt {

  /** Column length of `contentObjectType` and `contentIdentifier`. */
  const MaxColumnLength := 255

  /** A persisted case, known here only by its datastore identity. */
  datatype Case = Case(id: nat)

  /** One row of the case-content link table. */
  class CaseContentLink {
    var aCase: Case
    var contentObjectType: string
    var contentIdentifier: string

    constructor (subject: Case, objectType: string, identifier: string)
      ensures aCase == subject
      ensures contentObjectType == objectType && contentIdentifier == identifier
      ensures ColumnsValid() <==> |objectType| <= MaxColumnLength && |identifier| <= MaxColumnLength
    {
      aCase := subject;
      contentObjectType := objectType;
      contentIdentifier := identifier;
    }

    /** The column constraints: the type tag and identifier fit their 255-character columns
        (non-null is given by the types). */
    predicate ColumnsValid(): (valid: bool)
      reads this
      ensures valid <==> |GetContentObjectType()| <= MaxColumnLength && |GetContentIdentifier()| <= MaxColumnLength
    {
      |contentObjectType| <= MaxColumnLength && |contentIdentifier| <= MaxColumnLength
    }

    function GetCase(): (subject: Case)
      reads this
      ensures subject == aCase
    {
      aCase
    }

    method SetCase(subject: Case)
      modifies this
      ensures GetCase() == subject
      ensures contentObjectType == old(contentObjectType) && contentIdentifier == old(contentIdentifier)
      ensures ColumnsValid() == old(ColumnsValid())
    {
      aCase := subject;
    }

    function GetContentObjectType(): (objectType: string)
      reads this
      ensures objectType == contentObjectType
    {
      contentObjectType
    }

    method SetContentObjectType(objectType: string)
      modifies this
      ensures GetContentObjectType() == objectType
      ensures aCase == old(aCase) && contentIdentifier == old(contentIdentifier)
      ensures ColumnsValid() <==> |objectType| <= MaxColumnLength && |contentIdentifier| <= MaxColumnLength
    {
      contentObjectType := objectType;
    }

    function GetContentIdentifier(): (identifier: string)
      reads this
      ensures identifier == contentIdentifier
    {
      contentIdentifier
    }

    method SetContentIdentifier(identifier: string)
      modifies this
      ensures GetContentIdentifier() == identifier
      ensures aCase == old(aCase) && contentObjectType == old(contentObjectType)
      ensures ColumnsValid() <==> |contentObjectType| <= MaxColumnLength && |identifier| <= MaxColumnLength
    {
      contentIdentifier := identifier;
    }

    /** The generic subject of the link is its case. */
    function GetSubject(): (subject: Case)
      reads this
      ensures subject == aCase
    {
      GetCase()
    }

    method SetSubject(subject: Case)
      modifies this
      ensures GetSubject() == subject && GetCase() == subject
      ensures contentObjectType == old(contentObjectType) && contentIdentifier == old(contentIdentifier)
      ensures ColumnsValid() == old(ColumnsValid())
    {
      SetCase(subject);
    }

    /** The generic type tag of the link is the content's type tag. */
    function GetPolymorphicObjectType(): (objectType: string)
      reads this
      ensures objectType == contentObjectType
    {
      GetContentObjectType()
    }

    method SetPolymorphicObjectType(objectType: string)
      modifies this
      ensures GetPolymorphicObjectType() == objectType && GetContentObjectType() == objectType
      ensures aCase == old(aCase) && contentIdentifier == old(contentIdentifier)
      ensures ColumnsValid() <==> |objectType| <= MaxColumnLength && |contentIdentifier| <= MaxColumnLength
    {
      SetContentObjectType(objectType);
    }

    /** The generic identifier of the link is the content's identifier. */
    function GetPolymorphicIdentifier(): (identifier: string)
      reads this
      ensures identifier == contentIdentifier
    {
      GetContentIdentifier()
    }

    method SetPolymorphicIdentifier(identifier: string)
      modifies this
      ensures GetPolymorphicIdentifier() == identifier && GetContentIdentifier() == identifier
      ensures aCase == old(aCase) && contentObjectType == old(contentObjectType)
      ensures ColumnsValid() <==> |contentObjectType| <= MaxColumnLength && |identifier| <= MaxColumnLength
    {
      SetContentIdentifier(identifier);
    }
  }

  /** `Functions.GET_CASE`: a link's subject, which is its case. */
  function GetCaseOf(link: CaseContentLink): (subject: Case)
    reads link
    ensures subject == link.aCase
  {
    link.GetSubject()
  }

  /** True when `link` records the content `(objectType, identifier)`. */
  predicate Contains(link: CaseContentLink, objectType: string, identifier: string)
    reads link
  {
    link.contentObjectType == objectType && link.contentIdentifier == identifier
  }

  /** The `findByCase` query: the links whose case is `subject`, in table order. */
  function FindByCase(links: seq<CaseContentLink>, subject: Case): (found: seq<CaseContentLink>)
    reads links
    ensures |found| <= |links|
    ensures forall l :: l in found ==> l in links && l.aCase == subject
    ensures forall l :: l in links && l.aCase == subject ==> l in found
  {
    if links == [] then []
    else (if links[0].aCase == subject then [links[0]] else []) + FindByCase(links[1..], subject)
  }

  /** The `findByContent` query: the links whose content type tag and identifier match, in
      table order. */
  function FindByContent(links: seq<CaseContentLink>, objectType: string, identifier: string)
    : (found: seq<CaseContentLink>)
    reads links
    ensures |found| <= |links|
    ensures forall l :: l in found ==> l in links && Contains(l, objectType, identifier)
    ensures forall l :: l in links && Contains(l, objectType, identifier) ==> l in found
  {
    if links == [] then []
    else (if Contains(links[0], objectType, identifier) then [links[0]] else [])
         + FindByContent(links[1..], objectType, identifier)
  }

  /** Two links with the same (case, contentObjectType, contentIdentifier). */
  predicate SameTriple(a: CaseContentLink, b: CaseContentLink)
    reads a, b
  {
    a.aCase == b.aCase && Contains(b, a.contentObjectType, a.contentIdentifier)
  }

  /** The unique constraint: no link shares its triple with a later link of the table. */
  predicate UniqueTriples(links: seq<CaseContentLink>)
    reads links
  {
    links == [] ||
    ((forall l :: l in links[1..] ==> !SameTriple(links[0], l)) && UniqueTriples(links[1..]))
  }

  /** `findByCase` keeps each row of the case exactly as often as the table holds it, and no
      other row. */
  lemma {:induction false} FindByCaseCount(links: seq<CaseContentLink>, subject: Case)
    ensures forall l :: multiset(FindByCase(links, subject))[l] ==
                        if l in links && l.aCase == subject then multiset(links)[l] else 0
  {
    if links != [] {
      FindByCaseCount(links[1..], subject);
      assert links == [links[0]] + links[1..];
    }
  }

  /** `findByContent` keeps each row of the content exactly as often as the table holds it, and
      no other row. */
  lemma {:induction false} FindByContentCount(links: seq<CaseContentLink>, objectType: string, identifier: string)
    ensures forall l :: multiset(FindByContent(links, objectType, identifier))[l] ==
                        if Contains(l, objectType, identifier) then multiset(links)[l] else 0
  {
    if links != [] {
      FindByContentCount(links[1..], objectType, identifier);
      assert links == [links[0]] + links[1..];
    }
  }

  /** The recursive form of the unique constraint says exactly that no two rows share a triple. */
  lemma {:induction false} UniqueTriplesMeans(links: seq<CaseContentLink>)
    ensures UniqueTriples(links) <==>
            forall i, j :: 0 <= i < j < |links| ==> !SameTriple(links[i], links[j])
  {
    if links != [] {
      UniqueTriplesMeans(links[1..]);
      if UniqueTriples(links) {
        forall i, j | 0 <= i < j < |links| ensures !SameTriple(links[i], links[j]) {
          if i == 0 {
            assert links[j] in links[1..];
          } else {
            assert links[i] == links[1..][i - 1] && links[j] == links[1..][j - 1];
          }
        }
      }
      if forall i, j :: 0 <= i < j < |links| ==> !SameTriple(links[i], links[j]) {
        forall l | l in links[1..] ensures !SameTriple(links[0], l) {
          var k :| 0 <= k < |links[1..]| && links[1..][k] == l;
          assert l == links[k + 1];
        }
        forall i, j | 0 <= i < j < |links[1..]| ensures !SameTriple(links[1..][i], links[1..][j]) {
          assert links[1..][i] == links[i + 1] && links[1..][j] == links[j + 1];
        }
      }
    }
  }

  /** Under the unique constraint, two different rows never share a triple. */
  lemma {:induction false} UniqueTriplesDistinct(links: seq<CaseContentLink>, a: CaseContentLink, b: CaseContentLink)
    requires UniqueTriples(links)
    requires a in links && b in links && SameTriple(a, b)
    ensures a == b
  {
    assert forall l :: l in links ==> l == links[0] || l in links[1..];
    if a != links[0] && b != links[0] {
      UniqueTriplesDistinct(links[1..], a, b);
    } else {
      assert SameTriple(b, a);
    }
  }

  /** Under the unique constraint, at most one link answers both queries: the one for the
      triple (subject, objectType, identifier). */
  lemma AtMostOneLinkPerTriple(links: seq<CaseContentLink>, subject: Case,
                               objectType: string, identifier: string,
                               a: CaseContentLink, b: CaseContentLink)
    requires UniqueTriples(links)
    requires a in FindByCase(links, subject) && a in FindByContent(links, objectType, identifier)
    requires b in FindByCase(links, subject) && b in FindByContent(links, objectType, identifier)
    ensures a == b
  {
    UniqueTriplesDistinct(links, a, b);
  }

  /** Under the unique constraint, a content item is linked at most once from each case: the
      links found for one content name pairwise different cases. */
  lemma ContentLinksHaveDistinctCases(links: seq<CaseContentLink>, objectType: string, identifier: string,
                                      a: CaseContentLink, b: CaseContentLink)
    requires UniqueTriples(links)
    requires a in FindByContent(links, objectType, identifier) && b in FindByContent(links, objectType, identifier)
    requires a != b
    ensures a.aCase != b.aCase
  {
    if a.aCase == b.aCase {
      UniqueTriplesDistinct(links, a, b);
    }
  }

  /** Under the unique constraint, a case links each content at most once: the links found for
      one case name pairwise different contents. */
  lemma CaseLinksHaveDistinctContents(links: seq<CaseContentLink>, subject: Case,
                                      a: CaseContentLink, b: CaseContentLink)
    requires UniqueTriples(links)
    requires a in FindByCase(links, subject) && b in FindByCase(links, subject)
    requires a != b
    ensures !Contains(b, a.contentObjectType, a.contentIdentifier)
  {
    if Contains(b, a.contentObjectType, a.contentIdentifier) {
      UniqueTriplesDistinct(links, a, b);
    }
  }
}
