/**
 * The key-pair helper: for a service name fixed at construction it looks up
 * and generates key pairs in the Keychain. The Keychain itself (the
 * Security framework) is not modelled: it is an object whose answers are
 * fixed functions of each call's parameters and whose `log` records every
 * call in order, and the model proves the helper's own decisions — which
 * tags are queried, in what order, what is requested, and which result is
 * delivered to the completion for each reply.
 */
module PKIHelper {

  import opened Wrappers
  import opened Decimal
  import opened KeyTags
  import opened PKIKeySpec

  /** `OSStatus`, a 32-bit signed status code. */
  newtype OSStatus = x: int | -0x8000_0000 <= x < 0x8000_0000

  const errSecSuccess: OSStatus := 0
  const errSecDuplicateItem: OSStatus := -25299
  const errSecItemNotFound: OSStatus := -25300

  /** An opaque `SecKey` handle. */
  datatype Key = Key(handle: nat)

  /** An opaque `SecAccessControl` handle. */
  datatype AccessControl = AccessControl(handle: nat)

  /** An opaque `CFError`. */
  datatype CFError = CFError(domain: string, code: int)

  datatype SCPKIError =
    | ItemAlreadyExistInKeychain(message: string)
    | KeyNotFound(message: string)
    | CouldNotCreateKeyPair(message: string)
    | CouldNotRetrievePublicKey(message: string)
    | CouldNotRetrievePrivateKey(message: string)

  /** The `Error` a completion can receive: one of the helper's own, or a platform error. */
  datatype Failure = Pki(error: SCPKIError) | Platform(cause: CFError)

  /** The arguments of one call of a completion handler. */
  datatype Completion = Completion(publicKey: Option<Key>, privateKey: Option<Key>, error: Option<Failure>)

  /** Either both keys and no error, or no key and exactly one error. */
  predicate WellFormed(c: Completion) {
    || (c.error.None? && c.publicKey.Some? && c.privateKey.Some?)
    || (c.error.Some? && c.publicKey.None? && c.privateKey.None?)
  }

  // ---------------------------------------------------------------------------
  // Keychain interface

  /** `kSecClassKey` */
  datatype ItemClass = KeyItem

  /** The attributes of a `SecItemCopyMatching` query. */
  datatype Query = Query(isPermanent: bool, applicationTag: string, itemClass: ItemClass, returnData: bool)

  /** What `SecItemCopyMatching` reports: a status and the (possibly nil) result. */
  datatype LookupReply = LookupReply(status: OSStatus, result: Option<Key>)

  /** The per-half attributes of a generation request. */
  datatype KeyAttrs = KeyAttrs(isPermanent: bool, applicationTag: string)

  /** The parameters passed to `SecKeyGeneratePair`. */
  datatype GenerateRequest = GenerateRequest(
    publicKeyAttrs: KeyAttrs,
    privateKeyAttrs: KeyAttrs,
    keyType: KeyType,
    sizeInBits: int,
    accessControl: AccessControl)

  /** What `SecKeyGeneratePair` reports: a status and the two (possibly nil) keys. */
  datatype GenerateReply = GenerateReply(status: OSStatus, publicKey: Option<Key>, privateKey: Option<Key>)

  /**
   * What `SecAccessControlCreateWithFlags` reports for the helper's fixed
   * protection class and flags: an access-control object, or no object and
   * the error it stored in its out-parameter.
   */
  datatype AccessControlReply = Created(accessControl: AccessControl) | NotCreated(error: CFError)

  /** The query for one half of a pair: permanent items of class key with the given tag. */
  function LookupQuery(tag: string): Query {
    Query(true, tag, KeyItem, true)
  }

  /** A lookup that succeeded and delivered a key. */
  predicate Found(reply: LookupReply) {
    reply.status == errSecSuccess && reply.result.Some?
  }

  /**
   * The generation request for a specification: both halves are permanent
   * exactly when the specification asks to be stored in the Keychain, each
   * half is tagged with its own derived tag, and the algorithm, size and
   * access-control object apply to the pair.
   */
  function GenerationRequest(spec: KeySpec, pairId: string, accessControl: AccessControl): GenerateRequest
    reads spec
  {
    GenerateRequest(
      KeyAttrs(spec.storeInKeychain, PublicTag(pairId)),
      KeyAttrs(spec.storeInKeychain, PrivateTag(pairId)),
      spec.keyType, spec.sizeInBits, accessControl)
  }

  // ---------------------------------------------------------------------------
  // The Keychain

  /** One call into the Keychain. */
  datatype Call = Lookup(query: Query) | Generate(request: GenerateRequest)

  /**
   * The Keychain as the helper sees it: its answers are fixed functions of
   * the call's parameters, and `log` records every call in the order it was
   * made.
   */
  class Keychain {
    const copyMatching: Query -> LookupReply
    const generatePair: GenerateRequest -> GenerateReply
    ghost var log: seq<Call>

    constructor (copyMatching: Query -> LookupReply, generatePair: GenerateRequest -> GenerateReply)
      ensures this.copyMatching == copyMatching && this.generatePair == generatePair
      ensures log == []
    {
      this.copyMatching := copyMatching;
      this.generatePair := generatePair;
      log := [];
    }

    /** `SecItemCopyMatching` */
    method CopyMatching(query: Query) returns (reply: LookupReply)
      modifies this
      ensures reply == copyMatching(query)
      ensures log == old(log) + [Lookup(query)]
    {
      reply := copyMatching(query);
      log := log + [Lookup(query)];
    }

    /** `SecKeyGeneratePair` */
    method GeneratePair(request: GenerateRequest) returns (reply: GenerateReply)
      modifies this
      ensures reply == generatePair(request)
      ensures log == old(log) + [Generate(request)]
    {
      reply := generatePair(request);
      log := log + [Generate(request)];
    }
  }

  // ---------------------------------------------------------------------------
  // Error messages of the generation path

  const ItemPrefix: string := "The item identified by '"
  const DuplicateSuffix: string := "' already exist in the Keychain"
  const MissingSuffix: string := "' does not exist"
  const UnknownStatusPrefix: string := "An unknown error ocurred while generating pair with code: "

  /** The item a message of the form `ItemPrefix + item + suffix` names, if it has that form. */
  function QuotedItem(message: string, suffix: string): Option<string> {
    if |ItemPrefix| + |suffix| <= |message|
       && message[..|ItemPrefix|] == ItemPrefix
       && message[|message| - |suffix|..] == suffix
    then Some(message[|ItemPrefix|..|message| - |suffix|])
    else None
  }

  /** The duplicate-item message names exactly the pair it was built for. */
  function DuplicateMessage(pairId: string): (m: string)
    ensures QuotedItem(m, DuplicateSuffix) == Some(pairId)
  {
    var m := ItemPrefix + pairId + DuplicateSuffix;
    assert m[..|ItemPrefix|] == ItemPrefix;
    assert m[|m| - |DuplicateSuffix|..] == DuplicateSuffix;
    assert m[|ItemPrefix|..|m| - |DuplicateSuffix|] == pairId;
    m
  }

  /** The key-not-found message names exactly the pair it was built for. */
  function MissingMessage(pairId: string): (m: string)
    ensures QuotedItem(m, MissingSuffix) == Some(pairId)
  {
    var m := ItemPrefix + pairId + MissingSuffix;
    assert m[..|ItemPrefix|] == ItemPrefix;
    assert m[|m| - |MissingSuffix|..] == MissingSuffix;
    assert m[|ItemPrefix|..|m| - |MissingSuffix|] == pairId;
    m
  }

  function UnknownStatusMessage(status: OSStatus): string {
    UnknownStatusPrefix + IntToString(status as int)
  }

  /** The status code a generic generation message reports, if it is one. */
  function ReportedCode(message: string): Option<int> {
    if |message| >= |UnknownStatusPrefix| && message[..|UnknownStatusPrefix|] == UnknownStatusPrefix
       && IsDecimal(message[|UnknownStatusPrefix|..])
    then Some(ParseInt(message[|UnknownStatusPrefix|..]))
    else None
  }

  /** The generic generation message embeds the status code so that it can be read back. */
  lemma UnknownStatusCodeRecoverable(status: OSStatus)
    ensures ReportedCode(UnknownStatusMessage(status)) == Some(status as int)
  {
    var m := UnknownStatusMessage(status);
    assert m[..|UnknownStatusPrefix|] == UnknownStatusPrefix;
    assert m[|UnknownStatusPrefix|..] == IntToString(status as int);
    ParseIntToString(status as int);
  }

  /** Distinct unrecognised codes give distinct messages. */
  lemma UnknownStatusMessageInjective(s1: OSStatus, s2: OSStatus)
    ensures UnknownStatusMessage(s1) == UnknownStatusMessage(s2) <==> s1 == s2
  {
    UnknownStatusCodeRecoverable(s1);
    UnknownStatusCodeRecoverable(s2);
  }

  /**
   * The error for a failed generation: the two recognised codes have their
   * own kinds, naming the pair; every other code is a generic failure.
   */
  function GenerationError(status: OSStatus, pairId: string): (e: SCPKIError)
    requires status != errSecSuccess
    ensures e.ItemAlreadyExistInKeychain? <==> status == errSecDuplicateItem
    ensures e.KeyNotFound? <==> status == errSecItemNotFound
    ensures e.CouldNotCreateKeyPair? <==> status != errSecDuplicateItem && status != errSecItemNotFound
    ensures !e.CouldNotRetrievePublicKey? && !e.CouldNotRetrievePrivateKey?
    ensures e.ItemAlreadyExistInKeychain? ==> QuotedItem(e.message, DuplicateSuffix) == Some(pairId)
    ensures e.KeyNotFound? ==> QuotedItem(e.message, MissingSuffix) == Some(pairId)
    ensures e.CouldNotCreateKeyPair? ==> ReportedCode(e.message) == Some(status as int)
  {
    if status == errSecDuplicateItem then ItemAlreadyExistInKeychain(DuplicateMessage(pairId))
    else if status == errSecItemNotFound then KeyNotFound(MissingMessage(pairId))
    else
      UnknownStatusCodeRecoverable(status);
      CouldNotCreateKeyPair(UnknownStatusMessage(status))
  }

  // ---------------------------------------------------------------------------
  // Access-control failure

  /**
   * The completion delivered when the access-control object cannot be
   * created, as the code is written: the error out-parameter is an
   * `Unmanaged<CFError>?`, a type that does not conform to `Error`, so
   * `accessControlError as? Error` is always nil.
   */
  function AccessControlFailureAsWritten(accessControlError: CFError): (c: Completion)
    ensures c.publicKey.None? && c.privateKey.None?
  {
    Completion(None, None, None)
  }

  /** As written, the caller gets neither keys nor an error. */
  lemma AccessControlFailureIsSilent(accessControlError: CFError)
    ensures AccessControlFailureAsWritten(accessControlError).error.None?
    ensures !WellFormed(AccessControlFailureAsWritten(accessControlError))
  {
  }

  /** The intended completion: no keys and the platform error that was reported. */
  function AccessControlFailure(accessControlError: CFError): (c: Completion)
    ensures WellFormed(c)
    ensures c.error == Some(Platform(accessControlError))
  {
    Completion(None, None, Some(Platform(accessControlError)))
  }

  // ---------------------------------------------------------------------------
  // The helper

  class KeyPairHelper {
    // `private(set)` and assigned only by the initializer.
    const serviceName: string

    constructor (serviceName: string)
      ensures this.serviceName == serviceName
    {
      this.serviceName := serviceName;
    }

    /**
     * Look up the public key and, only if that lookup succeeded with a key,
     * the private key; `c` is what the completion receives. The Keychain's
     * log gains exactly the lookups made, in order. `spec` is not consulted.
     */
    method GetKeyPair(spec: KeySpec, identifier: string, keychain: Keychain) returns (c: Completion)
      modifies keychain
      ensures var pairId := PairId(serviceName, identifier);
        var publicQuery, privateQuery := LookupQuery(PublicTag(pairId)), LookupQuery(PrivateTag(pairId));
        var pub, priv := keychain.copyMatching(publicQuery), keychain.copyMatching(privateQuery);
        && keychain.log == old(keychain.log) +
             (if Found(pub) then [Lookup(publicQuery), Lookup(privateQuery)] else [Lookup(publicQuery)])
        && WellFormed(c)
        && (c.error.None? <==> Found(pub) && Found(priv))
        && (c.error.None? ==> c.publicKey == pub.result && c.privateKey == priv.result)
        && ((c.error == Some(Pki(CouldNotRetrievePublicKey(pairId)))) <==>
              (pub.status == errSecSuccess && pub.result.None?))
        && ((c.error == Some(Pki(CouldNotRetrievePrivateKey(pairId)))) <==>
              (Found(pub) && priv.status == errSecSuccess && priv.result.None?))
        && ((c.error == Some(Pki(KeyNotFound(pairId)))) <==>
              (pub.status != errSecSuccess || (Found(pub) && priv.status != errSecSuccess)))
    {
      var keyPairIdentifier := PairId(serviceName, identifier);
      var publicKeyParams := LookupQuery(PublicTag(keyPairIdentifier));
      var privateKeyParams := LookupQuery(PrivateTag(keyPairIdentifier));

      var reply := keychain.CopyMatching(publicKeyParams);
      var status, result := reply.status, reply.result;

      if status == errSecSuccess {
        if result.None? {
          c := Completion(None, None, Some(Pki(CouldNotRetrievePublicKey(keyPairIdentifier))));
          return;
        }
        var publicKey := result.value;

        reply := keychain.CopyMatching(privateKeyParams);
        status, result := reply.status, reply.result;

        if status == errSecSuccess {
          if result.None? {
            c := Completion(None, None, Some(Pki(CouldNotRetrievePrivateKey(keyPairIdentifier))));
            return;
          }
          var privateKey := result.value;
          c := Completion(Some(publicKey), Some(privateKey), None);
          return;
        }
      }
      c := Completion(None, None, Some(Pki(KeyNotFound(keyPairIdentifier))));
    }

    /**
     * Generate a key pair for `spec` under the pair's two tags. If the
     * access-control object cannot be created the Keychain is not called;
     * otherwise it is called once, with the request built from `spec`, and
     * `c` is the completion its reply leads to.
     */
    method GenerateKeyPair(spec: KeySpec, identifier: string,
                           accessControlReply: AccessControlReply, keychain: Keychain)
      returns (c: Completion)
      modifies keychain
      ensures var pairId := PairId(serviceName, identifier);
        && (accessControlReply.NotCreated? ==>
              keychain.log == old(keychain.log) && c == AccessControlFailure(accessControlReply.error))
        && (accessControlReply.Created? ==>
              var request := GenerationRequest(spec, pairId, accessControlReply.accessControl);
              var reply := keychain.generatePair(request);
              && request.publicKeyAttrs == KeyAttrs(spec.storeInKeychain, PublicTag(pairId))
              && request.privateKeyAttrs == KeyAttrs(spec.storeInKeychain, PrivateTag(pairId))
              && request.keyType == spec.keyType && request.sizeInBits == spec.sizeInBits
              && request.accessControl == accessControlReply.accessControl
              && keychain.log == old(keychain.log) + [Generate(request)]
              && (if reply.status == errSecSuccess
                  then c == Completion(reply.publicKey, reply.privateKey, None)
                  else c == Completion(None, None, Some(Pki(GenerationError(reply.status, pairId)))))
              && (WellFormed(c) <==>
                    reply.status != errSecSuccess || (reply.publicKey.Some? && reply.privateKey.Some?)))
    {
      var keyPairIdentifier := PairId(serviceName, identifier);

      if accessControlReply.NotCreated? {
        c := AccessControlFailure(accessControlReply.error);
        return;
      }
      var accessControl := accessControlReply.accessControl;

      var keyPairParams := GenerationRequest(spec, keyPairIdentifier, accessControl);

      var reply := keychain.GeneratePair(keyPairParams);
      var status, publicKey, privateKey := reply.status, reply.publicKey, reply.privateKey;

      if status != errSecSuccess {
        var error := CouldNotCreateKeyPair(UnknownStatusMessage(status));
        if status == errSecDuplicateItem {
          error := ItemAlreadyExistInKeychain(DuplicateMessage(keyPairIdentifier));
        } else if status == errSecItemNotFound {
          error := KeyNotFound(MissingMessage(keyPairIdentifier));
        }
        c := Completion(None, None, Some(Pki(error)));
        return;
      }
      c := Completion(publicKey, privateKey, None);
    }
  }

  /**
   * Both operations use the same tags for the same pair: the tags the
   * generation request stores the halves under are the ones the lookup
   * queries, and the lookup of one identifier never queries a tag of
   * another identifier of the same service.
   */
  lemma LookupMatchesGeneration(helper: KeyPairHelper, identifier: string, other: string,
                                spec: KeySpec, accessControl: AccessControl)
    ensures var pairId := PairId(helper.serviceName, identifier);
      var request := GenerationRequest(spec, pairId, accessControl);
      var stored := {request.publicKeyAttrs.applicationTag, request.privateKeyAttrs.applicationTag};
      && LookupQuery(PublicTag(pairId)).applicationTag == request.publicKeyAttrs.applicationTag
      && LookupQuery(PrivateTag(pairId)).applicationTag == request.privateKeyAttrs.applicationTag
      && (other != identifier ==>
            var otherId := PairId(helper.serviceName, other);
            LookupQuery(PublicTag(otherId)).applicationTag !in stored &&
            LookupQuery(PrivateTag(otherId)).applicationTag !in stored)
  {
    TagIsolation(helper.serviceName, identifier, other);
    TagIsolation(helper.serviceName, other, identifier);
  }
}
