/**
 * The key specification: a reference class with three attributes fixed at
 * construction (algorithm, size, padding) and two flags that callers assign
 * in place. A single shared `common` instance holds the default
 * RSA / 4096-bit / PKCS#1-SHA512 specification; `From` makes an independent
 * copy of a specification so that callers can change the flags of the copy
 * without touching the shared one.
 */
module PKIKeySpec {

  /** The `kSecAttrKeyType` values a key pair can be generated with. */
  datatype KeyType = RSA | EC | ECSECPrimeRandom

  /** The cases of `SecPadding`. */
  datatype Padding =
    | NoPadding | PKCS1 | OAEP | SigRaw
    | PKCS1MD2 | PKCS1MD5 | PKCS1SHA1 | PKCS1SHA224 | PKCS1SHA256 | PKCS1SHA384 | PKCS1SHA512

  class KeySpec {
    // `private(set)` and assigned only by the initializer: never changed afterwards.
    const keyType: KeyType
    const sizeInBits: int
    const padding: Padding

    var accessOnlyWhenUnlocked: bool
    var storeInKeychain: bool

    /** Stores the three attributes; the flags take their declared defaults. */
    constructor (keyType: KeyType, sizeInBits: int, padding: Padding)
      ensures this.keyType == keyType && this.sizeInBits == sizeInBits && this.padding == padding
      ensures accessOnlyWhenUnlocked && !storeInKeychain
    {
      this.keyType := keyType;
      this.sizeInBits := sizeInBits;
      this.padding := padding;
      accessOnlyWhenUnlocked := true;
      storeInKeychain := false;
    }

    /**
     * A freshly allocated specification with the source's three attributes.
     * The flags are not copied: the copy has the defaults whatever the
     * source holds, and the source is left as it was.
     */
    static method From(source: KeySpec) returns (r: KeySpec)
      ensures fresh(r)
      ensures r.keyType == source.keyType && r.sizeInBits == source.sizeInBits && r.padding == source.padding
      ensures r.accessOnlyWhenUnlocked && !r.storeInKeychain
    {
      r := new KeySpec(source.keyType, source.sizeInBits, source.padding);
    }
  }

  /** The values of the shared default specification. */
  predicate IsCommonSpec(s: KeySpec)
    reads s
  {
    && s.keyType == RSA && s.sizeInBits == 4096 && s.padding == PKCS1SHA512
    && s.accessOnlyWhenUnlocked && !s.storeInKeychain
  }

  /** The statics of the key specification type: the shared `common` instance. */
  class SharedKeySpecs {
    const common: KeySpec

    constructor ()
      ensures fresh(common) && IsCommonSpec(common)
    {
      common := new KeySpec(RSA, 4096, PKCS1SHA512);
    }
  }

  /**
   * Copy the shared specification and ask for the copy to be stored in the
   * Keychain. The shared instance is a different object, so it keeps all of
   * its values, in particular `storeInKeychain`.
   */
  method PersistentCopyOfCommon(shared: SharedKeySpecs) returns (spec: KeySpec)
    requires IsCommonSpec(shared.common)
    ensures fresh(spec) && spec != shared.common
    ensures spec.keyType == RSA && spec.sizeInBits == 4096 && spec.padding == PKCS1SHA512
    ensures spec.storeInKeychain && spec.accessOnlyWhenUnlocked
    ensures unchanged(shared.common) && IsCommonSpec(shared.common)
  {
    spec := KeySpec.From(shared.common);
    spec.storeInKeychain := true;
  }
}
