# SoftHSM object and operation engine: a verified model

This project models the part of SoftHSM that decides what may happen to a key: the attribute policy engine, the life
cycle of objects, the operation state of a session, and the small codecs around them. It proves what they promise
together, for every input and every run of calls. `dafny verify dfyconfig.toml` checks everything.

## How the model is built

Each part has two layers. A specification layer describes one step as a function from the state before to the state
after: `Attributes.Write` for one attribute, `Templates.SaveTemplate` for one template, `ObjectStore.Perform` for one
call, `SigningOps.Step` for one call of a running operation. A code layer of classes (`Objects.OSObject`,
`Objects.P11Object`, `Library.SoftHSM`, `CipherSessions.CipherSession`, `SigningOps.SigningSession`,
`Search.FindSession`) updates fields in place, with the loops and the early returns of the C++ methods, and every
method is proved to be the step the specification describes. The results about all runs are lemmas about the
specification.

| file | what it holds |
|---|---|
| Cryptoki | bytes, machine words, return codes, session states, the authorisation matrix |
| Attributes, ObjectClasses, AttributeLaws | the policy for one attribute, the tables of the object classes, what one write keeps |
| Templates | saving and loading whole templates |
| Transparency, TransparentRuns | encryption at rest against a token that stores everything in clear |
| ObjectStore, ObjectLaws, Runs | the state of the library, its calls, and what they keep over all runs |
| Effects, Authority | who may make, change, destroy and read what; handles, logging out and closing sessions |
| Secrecy, Footnotes, Acceptance, Guards | which attributes are refused to readers, needed, refused or changeable by each call; when a write is accepted; the flags that restrict use |
| HalfMade | objects left behind by a call that failed while saving, and which of them are stored wrongly |
| Contents, NewKeys, Copies | what is in the objects that calls make, by the bytes of the template, of the generator and of the keys they come from |
| CopyLaws, CheckValues, UnwrappedKeys, Concatenation, Departures | copies, check values, those of unwrapped keys, the one dishonest derivation, departures from intent with examples |
| Objects, Library | the classes OSObject, P11Object and SoftHSM |
| Search | object search against attribute reading |
| Padding, KeyWrap | RFC 5652 padding, key wrapping, and its temporary keys |
| SymmetricOps, CipherSessions, CipherRuns | encryption and decryption in parts and at once, and whole conversations with them |
| SigningOps | signing, verifying, digesting, private-key decryption, re-authentication |
| Mechanisms, PublicPoints | the mechanism list of the configuration, raw and DER public points |

The specification is also read from outside: the results of Authority, Secrecy, Footnotes, Acceptance, Guards,
Contents, NewKeys, Copies and CipherRuns are stated on replies, stored flags, last entries, slices and bytes, not on the functions that
compute them.

What lies outside is a parameter with a contract: `Attributes.Token` (decryption undoes encryption, ciphertexts are no
shorter than plaintexts), `KeyWrap.Kit` and `SymmetricOps.Cipher` (inverse functions that work block by block),
`SigningOps.Stream`, `Keyed` and `Hash` (two updates that succeed amount to one with both parts, and ending a stream is
working on its message at once), and the generator's output. Storage calls
succeed. There is one token and one slot.

## Where the code departs from its own comments or documentation

The model follows the code. Each departure has its exact condition and an example.

- Concatenating two keys writes CKA_ALWAYS_SENSITIVE twice and CKA_NEVER_EXTRACTABLE never
  (src/lib/SoftHSM.cpp:12733). `Concatenation.ConcatenationIsHonestExactly` says when the result is honest anyway,
  `ObjectLaws.ConcatenationOverclaims` gives two keys for which it is not.
- Transactions on session objects do nothing (src/lib/object_store/SessionObject.cpp:301-314), so a failed template
  stays half applied there: `Templates.AtomicExactlyOnToken`, `Templates.PartialSave`, `Departures.MisstoredExample`.
- Calls that make objects leave one behind, with no handle, when they are refused while saving its template:
  `Departures.FailedCreation`, `FailedGeneration`, `FailedUnwrapping`, `FailedDerivation`; `Departures.HalfMadeExample`.
- A half-made session object can be encrypted otherwise than its own CKA_PRIVATE says, and be elsewhere than its flags
  say. Both are decided by the plan of the template and the entries accepted before the refused one:
  `HalfMade.HalfMadeStoredExactly`, `HalfMade.HalfMadePlacedExactly`, `Departures.MisstoredExample`. Encryption at rest
  is therefore right in every state of a run exactly if the run is clean, that is, no template of a C_CreateObject call
  plans a session object, is refused after entries that plan another privacy than the whole, and has given it bytes by
  then (`TransparentRuns.TransparentExactly`). Templates that settle privacy first are always clean
  (`TransparentRuns.PrivacyFirstIsClean`).
- The dates of private objects are stored in clear and cannot be read back: `Departures.DateReadsBackExactly`,
  `Departures.DateLost`.
- The check value of an agreed key belongs to the secret before it is cut: `CheckValues.AgreedCheckValueExactly`,
  `CheckValues.AgreedCheckValueWrong`.
- A check value named when a key is unwrapped is compared with a value still empty:
  `UnwrappedKeys.UnwrappedCheckValueExactly`, `UnwrappedKeys.UnwrappedExample`.
- A search fails over an object it cannot decrypt and leaves the session in its search state:
  `Library.SoftHSM.FindObjectsInit`, `Search.SearchFailsExactly`, `Search.DateStopsSearch`,
  `Departures.SearchStuckExample`.
- One-shot calls are not refused after updates. C_Encrypt and C_Decrypt then cut their answers:
  `CipherSessions.OneShotAfterUpdates` with `CutExample`, `CipherSessions.DecryptAfterUpdates` with `LostExample`.
  C_Digest includes what was fed before: `SigningOps.DigestAfterUpdate` with `DigestExample`.
- An input longer than the key makes raw RSA signing fail with its operation still running: `SigningOps.FinishOrRetry`,
  `SigningOps.OverflowExample`.
- Calls of the encryption family reset whatever operation is running when an argument is missing:
  `SigningOps.MissingArguments`, `SigningOps.StrayCallExample`.
- Padded decryption announces almost the whole address space when nothing is given or buffered, and block counts pass
  through an `int`: `CipherSessions.DecAnnouncedEnough`, `CipherSessions.NothingBuffered`,
  `CipherSessions.AnnouncedExactly`.

## Model

| member | source | states |
|---|---|---|
| Cryptoki.WordRoundTrip | src/lib/P11Attributes.cpp:300-330 | writing a word that was read gives back the same bytes |
| AttributeLaws.WriteTidy | src/lib/P11Attributes.cpp:379-496 | a write changes its own attribute and the ones it maintains, deletes nothing, and never stores a value of the wrong type |
| AttributeLaws.WriteKeepsHistory | src/lib/P11Attributes.cpp:1739-1825 | no write by any operation makes a claim about the past contradict the present |
| AttributeLaws.ChangeIsMonotone | src/lib/P11Attributes.cpp:1739-1825 | setting and copying only raise sensitivity, only lower extractability, and only give up claims |
| Objects.P11Object.UpdateAttr | src/lib/P11Attributes.cpp:503-2571 | the overrides of updateAttr write what the policy function says for the attribute's kind |
| Objects.P11Object.UpdateSensitive | src/lib/P11Attributes.cpp:1739-1782 | lowering sensitivity ends the claim, being born sensitive starts it, raising it later does not |
| Objects.P11Object.UpdateExtractable | src/lib/P11Attributes.cpp:1792-1829 | extractability granted ends the claim and cannot be granted again under set and copy |
| Objects.P11Object.UpdateValue | src/lib/P11Attributes.cpp:944-1074 | the value is sealed exactly for private objects and brings lengths and check value along |
| Objects.P11Object.UpdateCheckValue | src/lib/P11Attributes.cpp:825-908 | only the empty or the right check value is accepted |
| Objects.P11Object.UpdateOne | src/lib/P11Attributes.cpp:379-496 | a write happens only after all checks, in their order, with their return codes |
| Objects.P11Object.constructor | src/lib/P11Objects.cpp:64-114 | wrapping an object builds the attribute table of its class and fills in exactly the attributes it lacks |
| Objects.P11Object.SaveTemplate | src/lib/P11Objects.cpp:190-301 | the loop under its transaction leaves the attributes and the return code of the specification, rolled back on token objects |
| Objects.P11Object.RetrieveAttributeMap | src/lib/P11Attributes.cpp:135-223 | the loops count the null pointers, then answer with lengths or fill entry by entry as specified |
| Objects.P11Object.RetrieveOne | src/lib/P11Attributes.cpp:231-374 | one attribute is refused, measured, delivered or reported too large as specified |
| Objects.P11Object.LoadTemplate | src/lib/P11Objects.cpp:116-187 | every request is answered on its own and the return code ranks the failures |
| Objects.OSObject.AbortTransaction | src/lib/object_store/ObjectFile.cpp:835-870 | aborting restores the snapshot of a token object and nothing of a session object |
| Objects.OSObject.NextAttributeType | src/lib/object_store/SessionObject.cpp:148-168 | the walk visits attributes in ascending order and returns to CKA_CLASS after the last |
| Templates.SaveSucceedsExactly | src/lib/P11Objects.cpp:190-301 | saving succeeds with a final state iff the object may be changed, an unbroken chain of updates leads there, and every mandatory attribute is named |
| Templates.AcceptedTemplate | src/lib/P11Objects.cpp:190-301 | an accepted template names only attributes of the class, none prohibited and all writable for the operation |
| Templates.AtomicExactlyOnToken | src/lib/P11Objects.cpp:190-301 | failing saves leave the object exactly as it was iff its store rolls back; a session object is the counterexample |
| Templates.PartialSave | src/lib/P11Objects.cpp:210-270 | what a failed save leaves behind without a rollback: the entries before the failing one and that one's own effect |
| Templates.NestedExactly | src/lib/P11Attributes.cpp:135-223 | the values of a nested template are delivered where asked for iff every entry of the array names one and has room; else those before the first bad entry are, and its fault is the answer |
| Templates.NothingLeaks | src/lib/P11Objects.cpp:116-187 | a request for an attribute that must not be revealed gets the sensitive answer and nothing else, whatever stands beside it |
| Transparency.SaveAlike | src/lib/P11Attributes.cpp:56-69 | saving a template answers the same with and without encryption and leaves objects equal up to the cipher |
| Transparency.RetrieveAlike | src/lib/P11Attributes.cpp:258-370 | reading answers the same with and without encryption, dates excepted |
| TransparentRuns.TransparentRun | src/lib/SoftHSM.cpp:1709-2057 | over every run in which no creation leaves a wrongly stored object: same return codes and handles as without encryption, and every byte string of every object, half-made ones included, encrypted exactly if its object is private; dates excepted |
| TransparentRuns.TransparentExactly | src/lib/SoftHSM.cpp:12944-12962 | under every lawful cipher, exactly the clean runs keep every byte string stored as the flag of its object says, in all their states |
| TransparentRuns.PrivacyFirstIsClean | src/lib/P11Objects.cpp:210-270 | a step whose template settles CKA_PRIVATE before it gives byte strings is clean |
| HalfMade.AcceptedGive | src/lib/P11Attributes.cpp:944-1074 | the byte strings of an object are those its accepted entries gave last, or the check value a CKA_VALUE brought along, encrypted as planned |
| HalfMade.LeavesBegun | src/lib/P11Objects.cpp:210-270 | a half-made session object holds the effect of the accepted entries and nothing of the refused one |
| HalfMade.HalfMadeStoredExactly | src/lib/SoftHSM.cpp:12944-12962 | under every lawful cipher, what a failed creation leaves is stored as its own flag says iff not: a session object, accepted entries that plan another privacy than the whole template, and bytes they gave that the cipher changes |
| HalfMade.ExpandingGivesAway | src/lib/SoftHSM.cpp:12944-12962 | for ciphers that lengthen the last condition is any byte-string entry if planned private, any non-empty byte string if planned public |
| HalfMade.HalfMadePlacedExactly | src/lib/SoftHSM.cpp:12944-12962 | its flags are those of the entries accepted before the refused one, and it is where they say iff these plan what the whole template plans; on the token it is blank and its flag denies that it is there |
| HalfMade.PrivacyFirstIsSafe | src/lib/P11Objects.cpp:210-270 | a template that settles CKA_PRIVATE before it gives byte strings leaves nothing wrongly stored |
| HalfMade.FailedKey | src/lib/SoftHSM.cpp:8515-8578 | a failed key-making call gives out no handle, leaves one object iff its template was refused in saving, and stores that one rightly |
| ObjectLaws.NewObject | src/lib/P11Objects.cpp:64-114 | a new object has every attribute of its class, correctly typed, with claims that fit its flags |
| ObjectLaws.InitialisedAgain | src/lib/P11Objects.cpp:64-114 | wrapping a whole object in its class again changes nothing |
| ObjectLaws.PlacementIsFixed | src/lib/P11Attributes.h:180-230 | CKA_TOKEN and CKA_PRIVATE have the one footnote that lets them be chosen by creation and copy and never set |
| ObjectLaws.SaveKeepsHealth | src/lib/P11Objects.cpp:190-301 | success or failure, saving keeps an object whole, typed, of its class, and honest |
| ObjectLaws.GeneratedIsHealthy | src/lib/SoftHSM.cpp:8523-8548 | a generated key claims exactly what its flags say |
| ObjectLaws.UnwrappedIsHealthy | src/lib/SoftHSM.cpp:7843-7875 | an unwrapped key claims nothing about its past |
| ObjectLaws.DerivedIsHealthy | src/lib/SoftHSM.cpp:12735-12771 | a key derived by any mechanism but one claims no more than its base key |
| ObjectLaws.ConcatenationClaims | src/lib/SoftHSM.cpp:12703-12734 | exactly when the claims written for two concatenated keys fit the flags, and exactly when they are inherited |
| ObjectLaws.ConcatenationOverclaims | src/lib/SoftHSM.cpp:12733 | two never-extractable, never-sensitive keys make one that claims to have always been sensitive |
| Library.SoftHSM.constructor | src/lib/SoftHSM.cpp:463-512 | the library starts with no objects and no handles |
| Library.SoftHSM.Register | src/lib/handle_mgr/HandleManager.cpp:83-128 | an object keeps its handle, or gets the next one |
| Library.SoftHSM.CreateObject | src/lib/SoftHSM.cpp:12866-12992 | creation allocates, initialises, saves, marks and registers as specified, on every path |
| Library.ExtractObjectInformation | src/lib/SoftHSM.cpp:267-361 | the loop finds the last correctly sized entries and reports what is missing |
| Library.PutCheckValueLast | src/lib/SoftHSM.cpp:12911-12935 | the two loops are the stable reordering that puts check values last |
| Library.SoftHSM.Transcribe | src/lib/SoftHSM.cpp:1792-1857 | the attribute walk terminates and carries every attribute over once, encrypting byte strings when a public object becomes private |
| Library.SoftHSM.CopyObject | src/lib/SoftHSM.cpp:1715-1889 | copying is the specified step; every failure destroys what was allocated |
| Library.WantedFlags | src/lib/SoftHSM.cpp:1756-1775 | the copy lives where the last well-sized entries say |
| Library.SoftHSM.SetAttributeValue | src/lib/SoftHSM.cpp:2009-2057 | setting is the specified step |
| Library.SoftHSM.GetAttributeValue | src/lib/SoftHSM.cpp:1962-2006 | reading answers as specified and changes nothing but missing attributes of the object |
| Library.SoftHSM.DestroyObject | src/lib/SoftHSM.cpp:1892-1935 | destroying is the specified step |
| Library.SoftHSM.GenerateSecret | src/lib/SoftHSM.cpp:8388-8578 | generation of AES, DES and generic keys is the specified step |
| Library.SoftHSM.GenerateKey | src/lib/SoftHSM.cpp:6223-6362 | dispatch, plan and authorisation of C_GenerateKey |
| Library.ReadWishes | src/lib/SoftHSM.cpp:8408-8448 | the loop over the template finds the length and the check-value wish, or the first error |
| Library.Assemble | src/lib/SoftHSM.cpp:8480-8515 | the library's own four entries, then the caller's without those four |
| Library.SoftHSM.UnwrapKey | src/lib/SoftHSM.cpp:7710-7936 | the object-making half of C_UnwrapKey is the specified step; an undecodable key is destroyed again |
| Library.SoftHSM.DeriveKey | src/lib/SoftHSM.cpp:7939-8126 | derivation by agreement, data encryption and concatenation is the specified step |
| Library.SoftHSM.WriteClaims | src/lib/SoftHSM.cpp:12703-12771 | the claims of a derived key are written as the code writes them, including the wrong attribute |
| Library.SoftHSM.WrapMechRsaAesKw | src/lib/SoftHSM.cpp:6844-6937 | wrapping through a temporary key, every exit path |
| Library.SoftHSM.UnwrapMechRsaAesKw | src/lib/SoftHSM.cpp:7442-7581 | unwrapping through a temporary key, every exit path |
| Library.SoftHSM.IssueHandles | src/lib/SoftHSM.cpp:2179-2197 | the objects a search found get their handles in order |
| Library.SoftHSM.Logout | src/lib/SoftHSM.cpp:1680-1706 | logging out drops the handles of private objects and removes private session objects |
| Library.SoftHSM.CloseSession | src/lib/SoftHSM.cpp:1551-1568 | closing a session removes its objects and handles, the last one all handles |
| Runs.StepLaw | src/lib/SoftHSM.cpp:1709-2205 | every call keeps the library sound, lowers no protection, moves no object, and makes only what its caller may write; every call but one keeps claims honest |
| Runs.TraceLaw | src/lib/SoftHSM.cpp:1709-2205 | so does every run |
| Runs.ObjectsAreWherePlaced | src/lib/SoftHSM.cpp:12885-12992 | in every reachable state a finished object is on the token iff CKA_TOKEN is true, and was made by a caller whose session may write token and private objects as its two flags say |
| Effects.ReadMatrix | src/lib/access.cpp:52-65 | private objects are read by the user only, in either kind of session, with the code for each case |
| Effects.WriteMatrix | src/lib/access.cpp:83-101 | token objects are written in read-write sessions only, private ones by the user only; where both fail the session is blamed |
| Effects.StepEffect | src/lib/SoftHSM.cpp:1709-2205 | any call but a logout or the end of a session touches only objects its caller may write, makes session objects in its own session, and gives out new handles that tell what they lead to |
| Authority.TokenNeedsReadWrite | src/lib/access.cpp:95-96 | over every run, a step from a read-only session leaves every finished token object as it is and makes none |
| Authority.PrivateNeedsUser | src/lib/access.cpp:83-101 | over every run, a step without the user makes, changes and destroys no finished private object, logging out and closing sessions apart |
| Authority.NewObjectsAreOwn | src/lib/SoftHSM.cpp:12940-12958 | over every run, a new session object belongs to the session of the call that made it |
| Authority.PrivateHandlesNeedUser | src/lib/SoftHSM.cpp:2099-2111 | over every run, a new handle that leads to a finished private object was given out to the user |
| Authority.HandlesNeverReturn | src/lib/handle_mgr/HandleManager.cpp:83-128 | over every run, a handle once given out and dropped is never given out again |
| Authority.LogoutExactly | src/lib/SoftHSM.cpp:1680-1706 | after a logout no handle leads to a private object and no private session object is stored; every other object and handle is as before, and those handles never come back |
| Authority.CloseExactly | src/lib/handle_mgr/HandleManager.cpp:161-199 | closing a session takes exactly its objects and handles, the last one all handles; token objects stay, and those handles never come back |
| Secrecy.RefusedExactly | src/lib/P11Objects.cpp:1264-1822 | an attribute is answered as sensitive, with nothing delivered, iff it holds the secret of a private or secret key that is sensitive or not extractable |
| Secrecy.DeliveredIsStored | src/lib/P11Attributes.cpp:258-374 | what is delivered is what is stored, decrypted for private objects, and fits the room offered |
| Secrecy.VerdictIsGravest | src/lib/P11Objects.cpp:116-187 | reading succeeds iff every request does, and otherwise returns the gravest code |
| Secrecy.ReadingOverRuns | src/lib/SoftHSM.cpp:1962-2006 | in every reachable state, reading gets to the attributes iff the object is public or the user is logged in, and then refuses exactly the secrets of guarded keys |
| Secrecy.SecretsForever | src/lib/P11Attributes.cpp:253-256 | over every run, once a key is guarded no reading of it or of later copies ever delivers a secret part, not even its length |
| Footnotes.NotesExactly | src/lib/P11Objects.cpp:338-1822 | for every class and attribute, which operations need it, refuse it, and may change it |
| Footnotes.CreatedNamesNeeded | src/lib/P11Objects.cpp:272-298 | a creation succeeds only if its template names what the class needs and nothing it refuses |
| Footnotes.SetChangesOnly | src/lib/P11Attributes.cpp:430-496 | setting, whatever it returns, changes only attributes that the class lets it change and the claims that follow them |
| Guards.TrustNeedsOfficer | src/lib/P11Attributes.cpp:1106-1134 | over every run, an object is trusted only if it or what it was copied from was trusted after a step of the security officer |
| Guards.WrapRestrictionForever | src/lib/P11Attributes.cpp:1839-1870 | over every run, a key that only trusted keys may wrap stays so, with all its copies |
| Guards.NeverCopied | src/lib/P11Attributes.cpp:724-749 | over every run, an object that says it may not be copied is never copied from then on |
| Guards.AlwaysAuthenticateIsPrivate | src/lib/P11Attributes.cpp:1885-1912 | over every run that copies finished objects only, a finished object that demands a login for every use is private |
| Guards.FrozenObjects | src/lib/P11Attributes.cpp:413-428 | no template changes a trusted certificate or an object that may not be modified |
| Acceptance.RefusedBefore | src/lib/P11Attributes.cpp:379-496 | the checks before every write, in terms of payload, stored flags and operation |
| Acceptance.FlagAccepted | src/lib/P11Attributes.cpp:724-1912 | when a flag is accepted: one byte, and the rules of trust, copying, sensitivity, extractability, wrapping and re-authentication |
| Acceptance.ClaimsFollow | src/lib/P11Attributes.cpp:1739-1829 | what the two flags do to the claims about the past, by operation |
| Acceptance.NumberAccepted | src/lib/P11Attributes.cpp:503-580 | when a number is accepted: one word; what names the class must agree, lengths belong to generation and derivation |
| Acceptance.BytesAccepted | src/lib/P11Attributes.cpp:1176-1216 | when bytes are accepted: dates are empty or eight bytes, mechanism sets whole words, nested templates whole entries, private text needs a login |
| Acceptance.ValueAccepted | src/lib/P11Attributes.cpp:944-1074 | when a value is accepted |
| Acceptance.CheckAccepted | src/lib/P11Attributes.cpp:825-908 | a check value is accepted iff it is empty or belongs to the value stored |
| Guards.DestroyExactly | src/lib/SoftHSM.cpp:1892-1935 | destroying succeeds iff the handle leads to a destroyable object its caller may write; object and handle are then gone and nothing else changed |
| Guards.SetExactly | src/lib/SoftHSM.cpp:2009-2057 | setting changes one object at most, only a modifiable one its caller may write and no trusted certificate, and on the token only if it succeeds |
| Guards.DeriveNeeds | src/lib/SoftHSM.cpp:7984-8126 | keys are derived only from keys that may be read, allow it, and are of the right class |
| Runs.SavedAsPlanned | src/lib/SoftHSM.cpp:267-361 | whatever order and duplicates a template has, the saved flags are the planned ones |
| Runs.AssembledPlan | src/lib/SoftHSM.cpp:7743-7768 | the reassembled template of a key-making call plans what the caller's template planned |
| Runs.HistoryOverRuns | src/lib/P11Attributes.cpp:1739-1825 | over every run without concatenated keys, the history attributes tell the truth about the object and all it was copied or derived from |
| Concatenation.HistoryOverCheckedRuns | src/lib/SoftHSM.cpp:12703-12771 | the same over every run in which concatenations pass a check the caller can make beforehand |
| Concatenation.ConcatenationIsHonestExactly | src/lib/SoftHSM.cpp:12703-12734 | a successful concatenation keeps the library honest iff that check is met |
| Runs.ProtectionIsForever | src/lib/P11Attributes.cpp:1739-1825 | once protected, an object and every later copy of it or of a copy stay protected, in their class |
| Runs.RefusalIsForever | src/lib/P11Attributes.cpp:253-256 | once refused as sensitive, an attribute is refused in every later read of the object and of all its later copies |
| Runs.FoundHaveHandles | src/lib/SoftHSM.cpp:2179-2197 | a search never fails to register, changes no object and no old handle, and every object found is reachable by its handle |
| CopyLaws.CopyPreservesMeaning | src/lib/SoftHSM.cpp:1756-1889 | decrypted, a copy is the original overwritten by the template, also when it becomes private |
| CopyLaws.OverwrittenAt | src/lib/SoftHSM.cpp:1883-1886 | overwritten means: unnamed attributes keep their value, named ones take that of the last entry |
| CopyLaws.UnnamedReadsTheSame | src/lib/SoftHSM.cpp:1792-1857 | attributes neither named nor dates read the same from copy and original |
| CopyLaws.CopiesOverRuns | src/lib/SoftHSM.cpp:1715-1889 | this holds for every object, half-made ones included, in every state that clean runs with checked concatenations reach |
| CopyLaws.CopyNamesCopyKinds | src/lib/P11Attributes.cpp:440-470 | what copying or setting may write is of a kind whose write is a plain assignment |
| Copies.CopyAllOrNothing | src/lib/SoftHSM.cpp:1715-1889 | a failed copy leaves no trace; one that succeeds needs a readable, copyable original and a writable place, and never makes a private object public |
| Copies.CopyIsOriginalOverwritten | src/lib/SoftHSM.cpp:1792-1889 | the copy shows the last entry of every attribute named, and reads like the original wherever the template touches nothing, dates included |
| Copies.SetIsOverwritten | src/lib/SoftHSM.cpp:2009-2057 | after setting, the object shows the last entry of every attribute named, and stores as before what the template does not touch |
| CheckValues.CreatedCheckValue | src/lib/SoftHSM.cpp:12911-12935 | wherever it stands in the template, the check value stored is the last one given or else the one that belongs to the value |
| Contents.WriteShows | src/lib/P11Attributes.cpp:503-2571 | whatever the attribute, after a write that succeeds it reads as the bytes written |
| Contents.CreatedShows | src/lib/SoftHSM.cpp:12866-12992 | a created object behind a new handle shows the last entry of every attribute its template names; a created key is not local and claims no past |
| Contents.CreatedMeasures | src/lib/P11Attributes.cpp:1928-1970 | the recorded lengths are the bytes of the value and the binary digits of value, modulus and prime |
| Contents.CreatedCheckShows | src/lib/P11Attributes.cpp:985-1070 | a certificate or secret key created with a value and no check value shows the one that belongs to the value |
| Contents.BitLengthIs | src/lib/data_mgr/ByteString.cpp:283-307 | the bit length of a byte string is the number of binary digits of its big-endian number |
| Contents.DraftUnnamed | src/lib/P11Objects.cpp:190-301 | what a template neither names nor touches is as in a blank object |
| Contents.BlankLooks | src/lib/P11Objects.cpp:64-114 | what a blank object is like: its flags by name, everything else empty |
| Contents.PlanIsComplete | src/lib/SoftHSM.cpp:267-361 | creation is incomplete iff class, key type or certificate type is missing, and takes no more than 32 entries |
| NewKeys.GeneratedKey | src/lib/SoftHSM.cpp:8388-8578 | a generated key holds the generator's output of the length asked for, its check value, and claims read off its flags; all else shows the template |
| NewKeys.UnwrappedKey | src/lib/SoftHSM.cpp:7843-7936 | an unwrapped key holds every part that was wrapped, is what the template plans, and claims no past |
| NewKeys.DerivedKeyIs | src/lib/SoftHSM.cpp:12575-12640 | a derived key holds the secret joined from the stored keys in the order of the mechanism, cut to length at the right end, with DES parity; flags and check value follow |
| CheckValues.CheckValuesAreTruthful | src/lib/P11Attributes.cpp:825-908 | over every clean run, keys created, generated or derived by data encryption or concatenation, and all their copies, have an empty check value or the one of their value, both as decrypted |
| CheckValues.AgreedCheckValueExactly | src/lib/SoftHSM.cpp:11485-11519 | under every cipher and check-value function, an agreed key has a truthful check value iff the whole secret becomes the key: nothing cut and, for DES, no parity bit changed |
| CheckValues.AgreedCheckValueWrong | src/lib/SoftHSM.cpp:11485-11519 | two bytes agreed upon and one taken: the check value stays that of the two |
| UnwrappedKeys.UnwrappedCheckValueExactly | src/lib/SoftHSM.cpp:7843-7875 | the check value of an unwrapped secret key belongs to its value under every check-value function iff the template gives none or the key is empty; one that is given must be that of the empty key |
| UnwrappedKeys.UnwrappedExample | src/lib/P11Attributes.cpp:825-908 | a check value accepted before the key is written, and wrong for the key |
| Departures.TextReadsBack | src/lib/P11Attributes.cpp:56-69 | a byte string stored in a private or public object is read back as given |
| Departures.DateReadsBackExactly | src/lib/P11Attributes.cpp:1176-1216 | under every cipher a date is read back as given iff the object is public or the date is empty |
| Departures.DateLost | src/lib/P11Attributes.cpp:1176-1216 | on some lawful token the date cannot be read at all |
| Departures.FailedCreation | src/lib/SoftHSM.cpp:12959-12962 | a failed creation changes the store iff it got as far as saving its template |
| Departures.FailedGeneration | src/lib/SoftHSM.cpp:8388-8578 | a failed C_GenerateKey leaves an object iff its own checks had passed |
| Departures.FailedUnwrapping | src/lib/SoftHSM.cpp:7710-7936 | a failed C_UnwrapKey leaves one iff plan and authority were in order and the template was refused in saving |
| Departures.FailedDerivation | src/lib/SoftHSM.cpp:7939-8126 | a failed C_DeriveKey leaves one iff keys, plan and secret were in order and the template was refused in saving |
| Departures.HalfMadeExample | src/lib/SoftHSM.cpp:12959-12962 | one refused template leaves such an object in an empty library |
| Departures.MisstoredExample | src/lib/SoftHSM.cpp:12944-12962 | one refused call of an anonymous caller leaves an object that is private by its flag, its label in clear |
| Departures.SearchStuckExample | src/lib/SoftHSM.cpp:2138-2160 | after that call a user who searches for the label gets an error |
| Departures.ReorderingMatters | src/lib/SoftHSM.cpp:12911-12935 | without the reordering an empty check value would be overwritten |
| Search.SearchAgreesWithReading | src/lib/SoftHSM.cpp:2118-2176 | for canonical values an object matches a template iff reading every named attribute returns the template's bytes |
| Search.FoundExactly | src/lib/SoftHSM.cpp:2099-2176 | a search hits an object iff it is public or its reader is the user and it reads as the template says |
| Search.OddBooleans | src/lib/SoftHSM.cpp:2130-2137 | for booleans outside 0 and 1 writing and searching disagree, and only there |
| Search.SearchFailsExactly | src/lib/SoftHSM.cpp:2118-2176 | in every state that a clean run reaches, a search fails iff some object shown is private and matches up to an entry naming a date of it that is not empty and does not decrypt |
| Search.SearchFailsOverDatesOnly | src/lib/SoftHSM.cpp:2138-2160 | in every state that a clean run reaches, a search fails only over a template that names a date |
| Search.DateStopsSearch | src/lib/SoftHSM.cpp:2138-2160 | under every cipher an object can be compared with an entry naming one of its dates iff the object is public or the date is empty |
| Library.SoftHSM.FindObjectsInit | src/lib/SoftHSM.cpp:2060-2205 | the search registers exactly the visible matching objects and keeps their handles, fails iff some visible object cannot be decided, and stays active either way |
| Padding.RFC5652Pad | src/lib/SoftHSM.cpp:6564-6574 | appends one to blocksize bytes that tell how many they are |
| Padding.RFC5652Unpad | src/lib/SoftHSM.cpp:6595-6624 | a non-empty buffer is accepted iff it is the padding of something, and yields that |
| Padding.UnpaddedExactly | src/lib/SoftHSM.cpp:6595-6624 | padding and unpadding are mutual inverses |
| Padding.PaddedInjective | src/lib/SoftHSM.cpp:6564-6574 | different data pad to different buffers |
| Padding.RFC3394Pad | src/lib/SoftHSM.cpp:6578-6592 | zeros up to the next multiple of eight |
| KeyWrap.WrapRoundTrip | src/lib/SoftHSM.cpp:6636-6753 | unwrapping undoes wrapping for the CBC and AES key wrap mechanisms, up to the zero padding of CKM_AES_KEY_WRAP |
| KeyWrap.KeyWrapKeepsLength | src/lib/SoftHSM.cpp:7243-7378 | CKM_AES_KEY_WRAP returns the very key iff its length is a multiple of eight |
| KeyWrap.WrapsExactly | src/lib/SoftHSM.cpp:6636-6753 | when wrapping is refused: eight bytes or fewer for CKM_AES_KEY_WRAP, broken blocks for CKM_AES_CBC, never for padded mechanisms |
| KeyWrap.WrapConserves | src/lib/SoftHSM.cpp:6844-6937 | on every exit path the objects and handles are those on entry; success iff length, authority and both wraps allow it |
| KeyWrap.UnwrapConserves | src/lib/SoftHSM.cpp:7442-7581 | likewise for unwrapping |
| KeyWrap.RsaAesRoundTrip | src/lib/SoftHSM.cpp:7442-7581 | unwrapping elsewhere and later returns the key: the split at the modulus length recovers both parts |
| KeyWrap.NeverHalfMade | src/lib/SoftHSM.cpp:12959-12962 | the template of the temporary key is never refused in saving, so it leaves nothing behind |
| SymmetricOps.PartsEncryptTheWhole | src/lib/SoftHSM.cpp:2813-2982 | cutting a message into any parts gives the output and the verdict of the one-shot function |
| SymmetricOps.PartsDecryptTheWhole | src/lib/SoftHSM.cpp:3547-3719 | likewise for decryption |
| SymmetricOps.OneBlockHeld | src/lib/crypto/OSSLEVPSymmetricAlgorithm.cpp:410-457 | padded decryption of whole blocks reaches the final call with exactly one block held |
| SymmetricOps.RoundTripInParts | src/lib/SoftHSM.cpp:2813-3719 | encrypted in any parts and decrypted in any other parts, a message comes back |
| CipherSessions.AnnouncedExactly | src/lib/SoftHSM.cpp:2829-2838 | the announced size survives its `int` iff the block count is below 2^31 |
| CipherSessions.EncAnnouncedExactly | src/lib/SoftHSM.cpp:2822-2873 | an encryption update hands out exactly what it announces |
| CipherSessions.DecAnnouncedEnough | src/lib/SoftHSM.cpp:3556-3610 | a decryption update never hands out more than it announces, given one byte present or buffered |
| CipherSessions.NothingBuffered | src/lib/SoftHSM.cpp:3564-3566 | with none the announcement wraps to a block below the address space |
| CipherSessions.FinalAnnouncement | src/lib/SoftHSM.cpp:3649-3690 | once whole blocks are in, the final call of a padded decryption announces a block less one byte; with nothing in, almost the whole address space |
| CipherSessions.CipherSession.SymEncryptUpdate | src/lib/SoftHSM.cpp:2813-2882 | query, retry, delivery and limit of an encryption update |
| CipherSessions.CipherSession.SymEncryptFinal | src/lib/SoftHSM.cpp:2912-2982 | the final call ends the operation or answers a query |
| CipherSessions.CipherSession.SymEncrypt | src/lib/SoftHSM.cpp:2646-2721 | the one-shot call |
| CipherSessions.CipherSession.SymDecryptUpdate | src/lib/SoftHSM.cpp:3547-3620 | query, retry, delivery and limit of a decryption update |
| CipherSessions.CipherSession.SymDecryptFinal | src/lib/SoftHSM.cpp:3649-3719 | the final call with padding removed |
| CipherSessions.CipherSession.SymDecrypt | src/lib/SoftHSM.cpp:3386-3453 | the one-shot call |
| CipherSessions.CipherSession.Encrypt | src/lib/SoftHSM.cpp:2784-2810 | missing arguments reset whatever operation is running; a wrong one does not |
| CipherSessions.OneShotEncrypts | src/lib/SoftHSM.cpp:2646-2721 | started afresh, C_Encrypt returns the whole ciphertext and its announcement is exact |
| CipherSessions.OneShotAfterUpdates | src/lib/SoftHSM.cpp:2646-2721 | after updates its answer is complete always in a stream mode, iff buffered bytes and tail fit one block in a padded mode, iff there are neither without padding |
| CipherSessions.CutExample | src/lib/SoftHSM.cpp:2646-2721 | one byte fed, one more encrypted at once: the padding is cut off |
| CipherSessions.DecryptAfterUpdates | src/lib/SoftHSM.cpp:3386-3453 | likewise for C_Decrypt: exact conditions for stream, authenticated, padded and unpadded modes |
| CipherSessions.LostExample | src/lib/SoftHSM.cpp:3386-3453 | a block fed and one more decrypted at once: that block is lost |
| CipherSessions.OneShotDecrypts | src/lib/SoftHSM.cpp:3386-3453 | started afresh, C_Decrypt returns the message, never longer than the ciphertext |
| CipherRuns.EncryptionDelivers | src/lib/SoftHSM.cpp:2813-2982 | in any conversation of parts, queries and retries, what was handed out when the final call delivers is the ciphertext of the parts taken |
| CipherRuns.DecryptionDelivers | src/lib/SoftHSM.cpp:3547-3719 | likewise for decryption |
| CipherRuns.EncryptionLimit | src/lib/SoftHSM.cpp:2830-2836 | a part is refused for the limit of the mechanism iff with everything taken before it would exceed it |
| CipherRuns.DecryptionLimit | src/lib/SoftHSM.cpp:3567-3572 | likewise for decryption |
| CipherRuns.ConversationsRoundTrip | src/lib/SoftHSM.cpp:2813-3719 | a message encrypted in one conversation and decrypted in another comes back |
| SigningOps.FinishOrRetry | src/lib/SoftHSM.cpp:3809-6145 | a finishing call is a query or retry that changes nothing, or ends the operation whatever it returns; the one exception is an input too long for raw RSA, exactly |
| SigningOps.OverflowExample | src/lib/SoftHSM.cpp:4857-4863 | two bytes under a one-byte key: the call fails and no operation can begin afterwards |
| SigningOps.MissingArguments | src/lib/SoftHSM.cpp:3519-3545 | a call refused for missing arguments changes nothing, unless it is one of the encryption family, which ends any operation |
| SigningOps.StrayCallExample | src/lib/SoftHSM.cpp:2784-2810 | a running signature ended by C_Encrypt |
| SigningOps.NoOneShotAfterUpdate | src/lib/SoftHSM.cpp:4764-4840 | one-shot signing and verifying are refused after an update |
| SigningOps.DigestAfterUpdate | src/lib/SoftHSM.cpp:3809-3869 | C_Digest is not, and answers with the digest of its own data under every hash iff the parts fed before are empty |
| SigningOps.DigestExample | src/lib/SoftHSM.cpp:3809-3896 | one byte fed and one digested give another answer than the one byte alone |
| SigningOps.AlwaysTakenIn | src/lib/SoftHSM.cpp:4923-4996 | over every run, the state of the running algorithm is that of the concatenation of all accepted parts, and a demanded login is awaited or was given |
| SigningOps.OutputsAreOneShot | src/lib/SoftHSM.cpp:4764-5119 | over every run, whatever is returned is the one-shot function of all parts fed since the operation began |
| SigningOps.VerdictsAreOneShot | src/lib/SoftHSM.cpp:5857-6145 | over every run, a signature is found right iff the one-shot verification of all parts says so |
| SigningOps.SignedIsFilledUp | src/lib/SoftHSM.cpp:4857-4865 | over every run, C_Sign signs its data, under raw RSA filled up with leading zeros to the size of the key, which is the same number |
| SigningOps.VerifiedIsFilledUp | src/lib/SoftHSM.cpp:5928-5936 | over every run, C_Verify accepts iff the signature is one of the data so filled up and the lengths fit |
| SigningOps.AnnouncedIsEnough | src/lib/SoftHSM.cpp:4842-4855 | repeated with the announced room a call is not sent back again and delivers as announced; with less it is |
| SigningOps.NoOutputWithoutLogin | src/lib/SoftHSM.cpp:4835-4840 | over every run, a key that always demands authentication yields output only after a login made since the operation began |
| SigningOps.SigningSession.DoSign | src/lib/SoftHSM.cpp:4764-4920 | C_Sign is the specified step: zero prefix of raw RSA, one update and the end where parts are allowed, the one-shot function elsewhere |
| SigningOps.SigningSession.DoSignUpdate | src/lib/SoftHSM.cpp:4923-4996 | C_SignUpdate is the specified step; a failing update ends the operation |
| SigningOps.SigningSession.DoSignFinal | src/lib/SoftHSM.cpp:4999-5119 | C_SignFinal is the specified step |
| SigningOps.SigningSession.DoVerify | src/lib/SoftHSM.cpp:5857-5981 | C_Verify is the specified step, with the same prefix and the two return codes of a failing update |
| SigningOps.SigningSession.DoVerifyFinal | src/lib/SoftHSM.cpp:6055-6145 | C_VerifyFinal is the specified step |
| SigningOps.SigningSession.DoDigest | src/lib/SoftHSM.cpp:3809-3869 | C_Digest is the specified step |
| SigningOps.SigningSession.DoDigestUpdate | src/lib/SoftHSM.cpp:3872-3896 | C_DigestUpdate is the specified step; a failing update ends the operation |
| SigningOps.SigningSession.DoVerifyUpdate | src/lib/SoftHSM.cpp:5984-6052 | C_VerifyUpdate is the specified step; a failing update ends the operation |
| SigningOps.SigningSession.DoDigestFinal | src/lib/SoftHSM.cpp:3973-4022 | C_DigestFinal is the specified step |
| SigningOps.SigningSession.DoDecrypt | src/lib/SoftHSM.cpp:3456-3545 | C_Decrypt with a private key is the specified step |
| SigningOps.SigningSession.DoContextLogin | src/lib/SoftHSM.cpp:1664-1671 | the context-specific login clears the demand iff the PIN is right |
| Mechanisms.PrepareSupportedMechanisms | src/lib/SoftHSM.cpp:909-955 | the scanner terminates and enables a mechanism iff it is known and listed, or known and not listed after a minus sign |
| Mechanisms.IsMechanismPermitted | src/lib/SoftHSM.cpp:13882-13903 | the mechanism is on the list, and on the list of the key if that is not empty |
| Mechanisms.PermittedByName | src/lib/SoftHSM.cpp:13882-13903 | with distinct mechanisms this is decided by the name in the configuration and the list of the key |
| Mechanisms.UnknownNamesIgnored | src/lib/SoftHSM.cpp:933-951 | appending an empty or unknown name changes nothing, unless the word ALL loses its meaning |
| PublicPoints.GetECDHPubData | src/lib/SoftHSM.cpp:13374-13421 | the branches decide as the test for an octet string says |
| PublicPoints.Raw2Octet | src/lib/crypto/DerUtil.cpp:37-72 | counting bytes from the top and filling from the end yields the shortest length field |
| PublicPoints.RawAndEncodedAgree | src/lib/SoftHSM.cpp:13374-13421 | a raw point of one of the five sizes and its encoding come out the same |
| PublicPoints.UnchangedExactly | src/lib/SoftHSM.cpp:13374-13421 | input is passed through iff it has none of the five sizes and its length field, of up to eight bytes, fits what follows |
| PublicPoints.IdempotentExactly | src/lib/SoftHSM.cpp:13374-13421 | normalising twice is normalising once iff the result has none of the five sizes |
| PublicPoints.ConfusesOnlyEncodings | src/lib/SoftHSM.cpp:13374-13421 | two inputs come out the same only if one is the encoding of the other |
| PublicPoints.LongFieldMisread | src/lib/data_mgr/ByteString.cpp:238-250 | a nine-byte length field is misread |

## Left out

- TransparentRuns.TransparentRun: is stated for clean runs, because wrongly stored half-made objects break it (TransparentRuns.TransparentExactly); the two date attributes are not compared, because they are stored in clear.
- Transparency.RetrieveAlike: leaves out the two date attributes, for which Departures.DateReadsBackExactly has the exact condition.
- CopyLaws.CopyPreservesMeaning: does not compare the two date attributes, because they are stored in clear.
- CopyLaws.UnnamedReadsTheSame: leaves out the two date attributes for the same reason.
- CopyLaws.CopiesOverRuns: is stated for clean runs with checked concatenations.
- CheckValues.CheckValuesAreTruthful: is stated for clean runs; agreed keys have CheckValues.AgreedCheckValueExactly, unwrapped keys UnwrappedKeys.UnwrappedCheckValueExactly, and key types without a check value of their own (GOST) are not covered.
- Runs.HistoryOverRuns: excludes the concatenation of two keys, for which Concatenation has the exact condition.
- Guards.AlwaysAuthenticateIsPrivate: is stated for runs that copy no half-made object, because such an object carries only the flags of its accepted entries.
- CipherRuns.EncryptionDelivers: is stated for block counts that fit an `int`, like the other results of that module; CipherSessions.AnnouncedExactly says what happens beyond.
- CipherRuns.DecryptionDelivers: the same, with fewer than 2^63 bytes at a time.
- Search.FoundExactly: the same restrictions as Search.SearchAgreesWithReading.
- Search.SearchAgreesWithReading: is stated for attributes that may be revealed, canonical booleans, and no mechanism sets or nested templates, which searching never matches.
- Runs.TraceLaw: reading and the wrapping through a temporary key are not steps of a run; both leave the objects and handles of a sound library as they were (ObjectLaws.InitialisedAgain, KeyWrap.WrapConserves, KeyWrap.UnwrapConserves).
- KeyWrap.UnwrapConserves: the wrapped blob must be at least as long as the modulus, because the code subtracts the lengths unchecked and reads beyond the end otherwise.
- Library.SoftHSM.UnwrapMechRsaAesKw: the same holds for the method.
- Padding.RFC5652Unpad: the empty buffer, which the code reads before its start.
- PublicPoints.GetECDHPubData: lengths that do not fit a size_t.
- Objects.P11Object.UpdateAttr: what a wrap or unwrap template contains is an unspecified function of the bytes given, because it lies behind pointers.
- Objects.P11Object.RetrieveOne: a null pointer among others in a nested array, through which the code writes; the lengths of a nested template are a map, where the code lists them by ascending type.
- Library.SoftHSM.GenerateKey: domain parameters, which are generated without history or check values.
- Library.SoftHSM.UnwrapKey: choosing and checking the unwrapping key, and CKA_UNWRAP_TEMPLATE.
- Library.SoftHSM.DeriveKey: agreements on elliptic curves, which store a key as CKM_DH_PKCS_DERIVE does (the point normalisation is modelled), the check of the mechanism against the base key's list (Mechanisms.IsMechanismPermitted), and the base key types of the single mechanisms.
- CipherSessions.CipherSession.Encrypt: encryption with a public key, one call without parts.
- Key pair generation, DSA, DH, EC, EdDSA, ML-DSA and GOST keys: generation repeats the construction proved for secret keys, once for each half of the pair; their classes and attributes are modelled.
- C_WrapKey: choosing and checking the wrapping key, comparing CKA_WRAP_TEMPLATE, and CKM_DES3_CBC.
- Initialising cipher and signature operations from mechanism parameters: long tables without inductive content; a session is started with a cipher or key that already is one.
- C_FindObjects: it hands out the handles that C_FindObjectsInit found, piece by piece.
- C_DigestKey: it feeds the value of a key as C_DigestUpdate feeds data, after checks on the key.
- Random initialisation vectors of the data encryption: the cipher of the token is one function.
- Failing storage calls, several slots or tokens, other processes, pointer validity, memory: not part of this model.
- The order in which std::set yields objects to a search, and the byte order of a mechanism set that is read: any order is allowed.
