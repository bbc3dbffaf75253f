# SCPKIHelper in Dafny

A model of SCPKIHelper, an iOS library that generates and retrieves key pairs in the Keychain. It covers the library's own logic:

- **Key specification** (`PKIKeySpec`). `KeySpec` is a reference class. Its algorithm, size and padding are fixed at construction. It has two mutable flags, `accessOnlyWhenUnlocked` and `storeInKeychain`. The shared default instance `common` is modelled by `SharedKeySpecs`. `KeySpec.From` makes a copy of a specification as a fresh object, so changing the copy's flags cannot change `common`.
- **Tag derivation** (`KeyTags`). The pair identifier is `serviceName + "." + identifier`. The two halves of the pair are stored under `<pair>.public` and `<pair>.private`.
- **The helper** (`PKIHelper.KeyPairHelper`). It holds the service name and has two operations:
  - `GetKeyPair` looks up the public key. Only if that lookup delivers a key does it look up the private key. It then either returns both keys or classifies the failure.
  - `GenerateKeyPair` builds the generation request from the specification and maps the returned status code to the helper's error kinds.

The Security framework itself is not modelled:
- The Keychain is a `Keychain` object. Its answers to `SecItemCopyMatching` and `SecKeyGeneratePair` are fixed functions of the call's parameters. Its ghost `log` records every call in the order it was made. The contracts of both operations say exactly which calls they add to the log.
- `SecAccessControlCreateWithFlags` is always called with the same constants, so it is modelled as an `AccessControlReply` value.

`SecKey`, `SecAccessControl` and `CFError` are opaque handles. Neither operation calls a completion handler. Instead it returns the `(publicKey, privateKey, error)` triple the handler would receive. Each path therefore delivers exactly one result.

`Decimal` models how Swift's string interpolation writes an `OSStatus`. It also has the inverse parser, which is used to state that the generic generation error message contains the status code.

Facts about the Swift code that the model keeps:
- `from` copies the algorithm, size and padding. It resets both flags to their defaults rather than copying them.
- The generation request attaches the access-control object at the top level of the parameters, not to the private-key attributes.
- The access-control object is always built for "passcode set, this device only" with the `biometryCurrentSet` and `devicePasscode` flags. `accessOnlyWhenUnlocked` is never read.
- `getKeyPair` ignores its `spec` argument.
- The errors of `getKeyPair` carry the bare pair identifier. For `generateKeyPair`, the duplicate-item and item-not-found messages quote the pair identifier; the generic failure message carries only the status code.
- The model differs from the Swift code in one place: on an access-control failure, `GenerateKeyPair` delivers the corrected completion (see "## Findings").

## Model

| member | source | states |
|---|---|---|
| `KeyTags.PublicNeverPrivate` | SCPKIHelper/Classes/SCPKIHelper.swift:50-56 | a public tag never equals a private tag, for any two pair identifiers |
| `KeyTags.PairIdInjective` | SCPKIHelper/Classes/SCPKIHelper.swift:46 | for one service name, two identifiers give the same pair identifier exactly when they are equal |
| `KeyTags.PublicTagInjective` | SCPKIHelper/Classes/SCPKIHelper.swift:50 | two public tags are equal exactly when their pair identifiers are |
| `KeyTags.PrivateTagInjective` | SCPKIHelper/Classes/SCPKIHelper.swift:56 | two private tags are equal exactly when their pair identifiers are |
| `KeyTags.TagIsolation` | SCPKIHelper/Classes/SCPKIHelper.swift:92-101 | for one service name: distinct identifiers get distinct public tags and distinct private tags, and no public tag is a private tag |
| `KeyTags.PairIdAmbiguousAcrossServices` | SCPKIHelper/Classes/SCPKIHelper.swift:46 | isolation holds only within one service name: ("a.b", "c") and ("a", "b.c") get the same pair identifier |
| `Decimal.NatToString` | SCPKIHelper/Classes/SCPKIHelper.swift:132 | the written form of a natural number is a non-empty digit string, with no leading zero unless the number is 0 |
| `Decimal.IntToString` | SCPKIHelper/Classes/SCPKIHelper.swift:132 | the written form of an integer is a well-formed decimal, with a minus sign exactly when the integer is negative |
| `Decimal.ParseNatToString` | SCPKIHelper/Classes/SCPKIHelper.swift:132 | parsing the digits of a natural number gives the number back |
| `Decimal.ParseIntToString` | SCPKIHelper/Classes/SCPKIHelper.swift:132 | parsing the written form of an integer gives the integer back |
| `Decimal.IntToStringInjective` | SCPKIHelper/Classes/SCPKIHelper.swift:132 | two integers have the same written form exactly when they are equal |
| `PKIHelper.DuplicateMessage` | SCPKIHelper/Classes/SCPKIHelper.swift:136 | reading the item back out of the duplicate-item message gives exactly the pair identifier |
| `PKIHelper.MissingMessage` | SCPKIHelper/Classes/SCPKIHelper.swift:137 | reading the item back out of the key-not-found message gives exactly the pair identifier |
| `PKIHelper.UnknownStatusCodeRecoverable` | SCPKIHelper/Classes/SCPKIHelper.swift:132-133 | the generic generation message contains the status code, and the code can be read back from it |
| `PKIHelper.UnknownStatusMessageInjective` | SCPKIHelper/Classes/SCPKIHelper.swift:132 | different unrecognised codes give different messages |
| `PKIHelper.GenerationError` | SCPKIHelper/Classes/SCPKIHelper.swift:131-139 | for every non-success status: duplicate item ⇔ itemAlreadyExistInKeychain; item not found ⇔ keyNotFound; any other code ⇔ couldNotCreateKeyPair with the code readable from the message; never a retrieval error; the first two name exactly the pair, read back out of their messages |
| `PKIHelper.AccessControlFailureAsWritten` | SCPKIHelper/Classes/SCPKIHelper.swift:104-113 | as written, an access-control failure delivers no keys |
| `PKIHelper.AccessControlFailureIsSilent` | SCPKIHelper/Classes/SCPKIHelper.swift:112 | as written, that completion also has no error, so it is neither a success nor a failure |
| `PKIHelper.AccessControlFailure` | SCPKIHelper/Classes/SCPKIHelper.swift:108-114 | corrected: no keys and exactly the reported platform error |
| `PKIHelper.Keychain.CopyMatching` | SCPKIHelper/Classes/SCPKIHelper.swift:64 | the reply is the Keychain's answer to the query, and exactly this lookup is appended to the log |
| `PKIHelper.Keychain.GeneratePair` | SCPKIHelper/Classes/SCPKIHelper.swift:129 | the reply is the Keychain's answer to the request, and exactly this generation call is appended to the log |
| `PKIHelper.KeyPairHelper.constructor` | SCPKIHelper/Classes/SCPKIHelper.swift:32-34 | the helper stores the service name it was given |
| `PKIHelper.KeyPairHelper.GetKeyPair` | SCPKIHelper/Classes/SCPKIHelper.swift:44-86 | the Keychain's log gains the public lookup and then, only if that lookup succeeded with a key, the private lookup, and no other call; the result has both keys and no error exactly when both lookups found keys, and those keys are the ones the lookups returned; otherwise it has no keys and exactly one error, carrying the pair identifier: couldNotRetrievePublicKey ⇔ public success without a key; couldNotRetrievePrivateKey ⇔ private success without a key; keyNotFound ⇔ a non-success status |
| `PKIHelper.KeyPairHelper.GenerateKeyPair` | SCPKIHelper/Classes/SCPKIHelper.swift:90-151 | if access control cannot be created, the Keychain is not called and the platform error is delivered (corrected, see ## Findings; the Swift code delivers no error); otherwise the log gains exactly one generation call: both halves' `isPermanent` is `spec.storeInKeychain`, the halves use the derived tags, and the request carries `spec.keyType`, `spec.sizeInBits` and the access-control object; success delivers the returned keys with no error; any other status delivers no keys and `GenerationError`; the result is well formed unless a success reply has a missing key |
| `PKIHelper.LookupMatchesGeneration` | SCPKIHelper/Classes/SCPKIHelper.swift:92-102 | the lookup queries the same tags the generation request stores the halves under, and a lookup for another identifier of the same service queries neither tag |
| `PKIKeySpec.KeySpec.constructor` | SCPKIHelper/Classes/SCPKIKeySpec.swift:14-25 | stores keyType, sizeInBits and padding; accessOnlyWhenUnlocked starts true and storeInKeychain starts false |
| `PKIKeySpec.KeySpec.From` | SCPKIHelper/Classes/SCPKIKeySpec.swift:27-29 | returns a freshly allocated spec with the keyType, sizeInBits and padding of `source` and the default flags, whatever flags `source` has |
| `PKIKeySpec.SharedKeySpecs.constructor` | SCPKIHelper/Classes/SCPKIKeySpec.swift:12 | `common` is RSA / 4096 bits / PKCS1SHA512 with storeInKeychain false and accessOnlyWhenUnlocked true |
| `PKIKeySpec.PersistentCopyOfCommon` | Example/Tests/Tests.swift:54-59 | copying `common` and setting storeInKeychain on the copy gives a different object with the flag set and leaves `common` unchanged, field for field |

`keyType`, `sizeInBits`, `padding` and `serviceName` are `private(set)` in the Swift code and are assigned only by the initializer. They are modelled as `const` fields, so Dafny enforces that they never change after construction.

## Findings

| source | as written | input that shows it | evidently intended | confidence | as-written member | corrected member |
|---|---|---|---|---|---|---|
| SCPKIHelper/Classes/SCPKIHelper.swift:112 | `accessControlError as? Error` casts an `Unmanaged<CFError>?` to `Error`; `Unmanaged` does not conform to `Error`, so the cast is always nil and the completion gets `(nil, nil, nil)` | any call where `SecAccessControlCreateWithFlags` returns nil | deliver the reported error (`accessControlError?.takeRetainedValue()`), so that the caller gets no keys and one error | high; not executed | `PKIHelper.AccessControlFailureAsWritten`, `PKIHelper.AccessControlFailureIsSilent` | `PKIHelper.AccessControlFailure` (used by `GenerateKeyPair`) |

## Left out

- The Security framework calls (`SecItemCopyMatching`, `SecKeyGeneratePair`, `SecAccessControlCreateWithFlags`) are modelled by the `Keychain` object's fixed answer functions and by the `AccessControlReply` value. Persistence, duplicate detection and access-control enforcement are their behaviour, not the helper's, so they are not modelled.
- `NotCreated` assumes that a failed access-control creation always fills in its error out-parameter.
- The access-control flags and the protection class are fixed constants passed through. The model treats the resulting object as an opaque handle.
- The `DispatchQueue` hops are left out. Both operations do their Keychain work on a background queue. `getKeyPair` calls its completion directly on that background queue. `generateKeyPair` delivers on the main queue, except for the access-control failure, which it delivers synchronously. Each operation returns the completion's arguments instead.
- The `shared` singleton is left out: it reads `Bundle.main.bundleIdentifier` and stops the process if it is nil. The service name is instead given to the constructor.
- The lookup result is taken as an optional key handle. The casts `result as! SecKey?`, and what a `kSecReturnData` query returns, are not modelled.
- `padding` is only stored and has no behaviour here.
- `KeyType` and `Padding` are closed enumerations. The Swift fields are an arbitrary `CFString` and the `SecPadding` option set, but they are only stored and passed through, so the model does not capture values outside these cases.
- The Keychain's answers do not change between the two lookups of `GetKeyPair`. Concurrent changes to the Keychain are not modelled.
- `sizeInBits` is an unbounded integer. It is only stored and passed on, so the 64-bit width of the Swift code's `Int` does not matter here.
- `removeKeys`, `getPublicKey`, `getPrivateKey`, `set(authenticationContext:)` and `secureInKeychain` are called by the example app but are not defined in the modelled files, so they are not part of this model. The same goes for the authentication context they would use.
- The example app's UI and the test harness are not modelled. `PersistentCopyOfCommon` states the scenario of Example/Tests/Tests.swift:54-59.
