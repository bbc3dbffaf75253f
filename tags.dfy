/**
 * Keychain tag derivation. A key pair is identified by the helper's service
 * name and a caller-chosen identifier; each half of the pair is stored under
 * its own application tag, derived from the pair identifier by a fixed
 * suffix. Both the lookup and the generation path use these functions.
 */
module KeyTags {

  const PublicSuffix: string := ".public"
  const PrivateSuffix: string := ".private"

  /** The pair identifier: the service name and the identifier, joined by a dot. */
  function PairId(serviceName: string, identifier: string): string {
    serviceName + "." + identifier
  }

  /** The tag of the public half: the pair identifier followed by the public suffix. */
  function PublicTag(pairId: string): string {
    pairId + PublicSuffix
  }

  /** The tag of the private half: the pair identifier followed by the private suffix. */
  function PrivateTag(pairId: string): string {
    pairId + PrivateSuffix
  }

  /** A public tag never equals a private tag, whatever the two pair identifiers. */
  lemma PublicNeverPrivate(pairId1: string, pairId2: string)
    ensures PublicTag(pairId1) != PrivateTag(pairId2)
  {
    var pub, priv := PublicTag(pairId1), PrivateTag(pairId2);
    assert pub[|pub| - 1] == 'c';
    assert priv[|priv| - 1] == 'e';
  }

  /** Under one service name, the pair identifier determines the identifier. */
  lemma PairIdInjective(serviceName: string, identifier1: string, identifier2: string)
    ensures PairId(serviceName, identifier1) == PairId(serviceName, identifier2) <==> identifier1 == identifier2
  {
    var p1, p2 := PairId(serviceName, identifier1), PairId(serviceName, identifier2);
    if p1 == p2 {
      var k := |serviceName| + 1;
      assert p1[k..] == identifier1;
      assert p2[k..] == identifier2;
    }
  }

  lemma PublicTagInjective(pairId1: string, pairId2: string)
    ensures PublicTag(pairId1) == PublicTag(pairId2) <==> pairId1 == pairId2
  {
    var t1, t2 := PublicTag(pairId1), PublicTag(pairId2);
    if t1 == t2 {
      assert t1[..|t1| - |PublicSuffix|] == pairId1;
      assert t2[..|t2| - |PublicSuffix|] == pairId2;
    }
  }

  lemma PrivateTagInjective(pairId1: string, pairId2: string)
    ensures PrivateTag(pairId1) == PrivateTag(pairId2) <==> pairId1 == pairId2
  {
    var t1, t2 := PrivateTag(pairId1), PrivateTag(pairId2);
    if t1 == t2 {
      assert t1[..|t1| - |PrivateSuffix|] == pairId1;
      assert t2[..|t2| - |PrivateSuffix|] == pairId2;
    }
  }

  /**
   * Tag isolation: for one service name, two identifiers share a tag exactly
   * when they are equal, and only on the same half of the pair.
   */
  lemma TagIsolation(serviceName: string, identifier1: string, identifier2: string)
    ensures var p1, p2 := PairId(serviceName, identifier1), PairId(serviceName, identifier2);
      && (PublicTag(p1) == PublicTag(p2) <==> identifier1 == identifier2)
      && (PrivateTag(p1) == PrivateTag(p2) <==> identifier1 == identifier2)
      && PublicTag(p1) != PrivateTag(p2)
  {
    var p1, p2 := PairId(serviceName, identifier1), PairId(serviceName, identifier2);
    PairIdInjective(serviceName, identifier1, identifier2);
    PublicTagInjective(p1, p2);
    PrivateTagInjective(p1, p2);
    PublicNeverPrivate(p1, p2);
  }

  /**
   * Isolation holds per service name only: the separator may also occur
   * inside a service name or an identifier, so two different pairs of
   * names can yield the same pair identifier.
   */
  lemma PairIdAmbiguousAcrossServices()
    ensures PairId("a.b", "c") == PairId("a", "b.c")
  {
  }
}
