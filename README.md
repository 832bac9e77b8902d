# Copla social identity and follow graph, in Dafny

Copla is a Quarkus/Panache backend where artists and their followers have
accounts. This project models its core:

- how an account links Bluesky identities to itself;
- how the artist `verified` flag follows those links;
- how the per-handle follow upsert of the Bluesky sync keeps one row per
  (follower, handle) and links rows to Copla accounts;
- the entity and validation rules around them: ordered guards, artist tags,
  commission cards and their elements, registration, and the default tags.

The database is a `Database` object whose tables are sequences in insertion
order; `persist()` appends and draws the next id. Entities that handlers
change in place are classes (`Account`, `SocialProfile`, `Following`,
`CommissionCard`, `CommissionCardElement`), and their methods carry
`modifies` frames. Tags are immutable values. Every handler returns the
error it answers with (`Option<Error>` or `Outcome<T>`), and each `Error`
has its HTTP status (`Error.StatusOf`). The caller's `SecurityIdentity`,
the clock and the encryption key are parameters.

Modules follow the source files:

- `Common`: nullable values, errors, and the `java.lang.String`/`java.util.List` operations relied on.
- `Entities`: the entity classes and the database.
- `Users`, `Artists`, `Tags`, `CommissionCards`, `Followings`: the entities' static operations.
- `Validation`: the guards.
- `SessionVault`: the AES session credential, modelled by when it fails.
- `SocialProfiles`: profile lists and the two handlers both resources share.
- `SocialProfileResource`, `UserResource`, `CommissionCardResource`, `Register`: the handlers.
- `FollowingDtos`: the follow view.

The source declares the Bluesky routes twice, in `SocialProfileResource`
and in `UserResource`:

- `addBluesky` and `unlinkSocialAccount` are the same code in both; they are modelled once, in `SocialProfiles`.
- The two `linkBlueskyAccount`s differ: one stores the session credential and one does not. Both are modelled.
- The commission-card handlers of `UserResource` are statement for statement those of `CommissionCardResource`; they are modelled once, in `CommissionCardResource`.

## Model

| member | source | states |
|---|---|---|
| `Users.FindByUsername` | src/main/java/art/entities/User.java:53-55 | null exactly when no account has the name; otherwise an account of the table with that name |
| `Users.FindByEmail` | src/main/java/art/entities/User.java:57-59 | null exactly when no account has the email; otherwise an account with it |
| `Users.ExistsName` | src/main/java/art/entities/User.java:61-63 | true iff some account has the name, i.e. iff `findByUsername` is non-null |
| `Users.ExistsEmail` | src/main/java/art/entities/User.java:65-67 | true iff some account has the email |
| `Users.Add` | src/main/java/art/entities/User.java:43-51 | one fresh account appended, with role "user", the given name, email and creation time, an empty profile list and the next id |
| `Artists.FindById` | src/main/java/art/entities/Artist.java:46-47 | null exactly when no artist has the id; otherwise the artist with it |
| `Artists.ArtistsWhere` | src/main/java/art/resources/UserResource.java:138-145 | exactly the artists of the table that satisfy every filter present (the `Artist.list(...)` queries) |
| `Artists.FindAllArtists` | src/main/java/art/entities/Artist.java:56-58 | exactly the accounts with role "artist" |
| `Artists.FindAllVerifiedArtists` | src/main/java/art/entities/Artist.java:60-62 | exactly the artists whose `verified` is set |
| `Artists.Add` | src/main/java/art/entities/Artist.java:29-38 | one fresh account appended with role "artist", `verified` equal to the argument, closed for commissions |
| `Artists.AddVerifiedToArtist` | src/main/java/art/entities/Artist.java:46-54 | answers true iff the artist exists, and then it is verified; no other account's flag changes |
| `Entities.Account.AddTag` | src/main/java/art/entities/Artist.java:98-106 | a null tag list becomes a list; the tag is appended unless present (`AppendIfAbsent`: old entries keep their places, the tag ends up in the list, no duplicate appears) |
| `Entities.Account.RemoveTag` | src/main/java/art/entities/Artist.java:108-113 | a null list stays null; otherwise the first occurrence of the tag is removed and the rest keep their order |
| `Entities.Account.SetOpenForCommissions` | src/main/java/art/entities/Artist.java:115-118 | the flag becomes exactly the argument |
| `Common.AppendIfAbsentIdempotent` | src/main/java/art/entities/Artist.java:102-104 | adding a tag twice is adding it once |
| `Common.RemoveUndoesAdd` | src/main/java/art/entities/Artist.java:98-113 | removing a tag that add-if-absent just appended gives the old list back |
| `Common.RemoveFirstFromNoDuplicates` | src/main/java/art/entities/Artist.java:108-113 | on a duplicate-free tag list, removal takes the tag out entirely and keeps the list duplicate-free |
| `Common.TrimIdempotent` | src/main/java/art/resources/CommissionCardResource.java:128-129 | trimming a trimmed title or description changes nothing, so the stored values are already in trimmed form |
| `Common.BlankTestsDiffer` | src/main/java/art/resources/RegisterResource.java:26-28 | registration's `isBlank()` and the card handlers' `trim().isEmpty()` disagree on some inputs (NUL, U+2028) |
| `Common.EqualsIgnoreCaseIsEquivalence` | src/main/java/art/resources/SocialProfileResource.java:218-221 | the case-insensitive match unlink uses is reflexive, symmetric and transitive |
| `Entities.CommissionCard.AddElement` | src/main/java/art/entities/CommissionCard.java:24-29 | a null element list becomes a list and the element is appended at the end |
| `Entities.CommissionCard.RemoveElement` | src/main/java/art/entities/CommissionCard.java:31-35 | a null list stays null; otherwise the first occurrence goes and the rest keep their order |
| `CommissionCards.FindById` | src/main/java/art/entities/CommissionCard.java:46 | null exactly when no card has the id; otherwise the card with it |
| `CommissionCards.FindElementById` | src/main/java/art/resources/CommissionCardResource.java:167 | null exactly when no element has the id; otherwise the element with it |
| `CommissionCards.Add` | src/main/java/art/entities/CommissionCard.java:37-43 | a fresh card with the title and description and an empty (non-null) element list, appended to the cards |
| `CommissionCards.Update` | src/main/java/art/entities/CommissionCard.java:45-52 | the card with that id takes the new title and description; with none, nothing changes; no other card changes |
| `CommissionCards.RemoveUndoesAddElement` | src/main/java/art/entities/CommissionCard.java:24-35 | removing the element just appended gives the element list back |
| `Tags.FindAllActiveTags` | src/main/java/art/entities/Tag.java:24-26 | exactly the active tags |
| `Tags.FindByCategory` | src/main/java/art/entities/Tag.java:28-30 | exactly the active tags of that category |
| `Tags.FindByName` | src/main/java/art/entities/Tag.java:32-34 | an active tag with exactly that name, or none exactly when no active tag has it |
| `Tags.GetAllTagNames` | src/main/java/art/entities/Tag.java:36-40 | exactly the names of active tags |
| `Tags.DefaultTagsShape` | src/main/java/art/entities/Tag.java:48-70 | the default seed is sixteen active tags with consecutive ids carrying the sixteen default names in order |
| `Tags.DefaultNamesDistinct` | src/main/java/art/entities/Tag.java:48-70 | the sixteen default names are pairwise distinct |
| `Tags.SeedDefaults` | src/main/java/art/entities/Tag.java:42-71 | no change when any tag exists; on an empty table sixteen active tags with distinct names and fresh ids |
| `Tags.SeedDefaultsIdempotent` | src/main/java/art/entities/Tag.java:42-46 | seeding twice is seeding once |
| `Tags.CreateTag` | src/main/java/art/entities/Tag.java:73-80 | one active tag with the given name, description and category appended with the next id |
| `Tags.CreateStyleTags` | src/main/java/art/entities/Tag.java:48-53 | the five tags under the "Style tags" heading, appended in order |
| `Tags.CreateMediumTags` | src/main/java/art/entities/Tag.java:55-59 | the four "Medium tags", appended in order |
| `Tags.CreateContentTags` | src/main/java/art/entities/Tag.java:61-64 | the three "Content tags", appended in order |
| `Tags.CreateGenreTags` | src/main/java/art/entities/Tag.java:66-70 | the four "Genre tags", appended in order |
| `Tags.CreateDefaultTags` | src/main/java/art/entities/Tag.java:42-71 | the table and id counter it leaves are those of `SeedDefaults`, so the seeding properties above hold of it |
| `Validation.ValidateUserExists` | src/main/java/art/services/ValidationService.java:19-25 | passes iff an account has the name, else 404 (same check at UserResource.java:38-44) |
| `Validation.ValidateArtistExists` | src/main/java/art/services/ValidationService.java:27-33 | passes iff that account exists and its role is exactly "artist", else 404 (UserResource.java:52-58) |
| `Validation.ValidateOwnership` | src/main/java/art/services/ValidationService.java:35-41 | passes iff a principal is present and named exactly `username`, else 403 (UserResource.java:66-72) |
| `Validation.ValidateCommissionCardExists` | src/main/java/art/services/ValidationService.java:43-48 | passes iff the artist's card is non-null, else 404 (UserResource.java:80-85) |
| `Validation.ArtistOwnerGuard` | src/main/java/art/resources/CommissionCardResource.java:47-53 | artist check first, ownership second: each error exactly in its case, and pass exactly when both hold |
| `Validation.ArtistCheckImpliesUserCheck` | src/main/java/art/services/ValidationService.java:19-33 | an account that passes the artist check passes the account check |
| `Validation.OwnershipIsExclusive` | src/main/java/art/services/ValidationService.java:35-41 | one identity passes the ownership check for one username only |
| `Followings.FindByFollowerAndHandle` | src/main/java/art/entities/Following.java:26-28 | null exactly when no row stands for the pair; otherwise a row for it |
| `Followings.FindByFollower` | src/main/java/art/entities/Following.java:30-32 | exactly the follower's rows |
| `Followings.FindOpenForCommissions` | src/main/java/art/entities/Following.java:34-36 | exactly the follower's rows whose linked account has role "artist" and is open for commissions |
| `Followings.FindCoplaUserByBlueskyHandle` | src/main/java/art/entities/Following.java:73-76 | null exactly when no account owns a profile with platform exactly "bluesky" and username exactly the handle (case-sensitive, verification ignored); otherwise such an account |
| `Followings.CreateOrUpdate` | src/main/java/art/entities/Following.java:38-71 | new pair: one fresh row with the values, followed = synced = now, linked to the handle's owner if any. Known pair: no row added; DID, display name and sync time refreshed; follow time kept; an existing link never replaced; an unset one resolved. Other rows unchanged; the pair's row count becomes 1 from 0 and stays otherwise; uniqueness per pair and valid links are preserved |
| `Followings.Insert` | src/main/java/art/entities/Following.java:40-55 | the insert branch: the row appended, with the pair's count 1 afterwards and uniqueness kept |
| `Followings.NewRow` | src/main/java/art/entities/Following.java:41-53 | the new row's fields, with `followed` the handle's owner at that moment |
| `Followings.AppendRow` | src/main/java/art/entities/Following.java:55 | persisting a row for a pair without one makes its count 1 and keeps rows unique per pair |
| `Followings.Refresh` | src/main/java/art/entities/Following.java:56-69 | the update branch: new DID, display name and sync time; `followed` re-resolved only while null; valid links preserved |
| `Followings.CountAfterAppend` | src/main/java/art/entities/Following.java:55 | appending a row adds one to its own pair's count and nothing to others' |
| `Followings.UniqueAfterAppend` | src/main/java/art/entities/Following.java:39-55 | appending a row for a pair without rows keeps at most one row per pair |
| `FollowingDtos.FromFollowing` | src/main/java/art/dtos/FollowingDto.java:19-38 | `isLinked` iff `followed` is set; unlinked rows have no Copla user and are not open; rows linked to an artist carry its open flag, others are not open; id, handle, display name and times copied |
| `FollowingDtos.ViewAgreesWithOpenQuery` | src/main/java/art/dtos/FollowingDto.java:27-37 | among a follower's rows, the view says "open for commissions" exactly for the rows `findOpenForCommissions` returns |
| `SessionVault.Encrypt` | src/main/java/art/resources/SocialProfileResource.java:184-190 | fails exactly when the configured key is not a 16-, 24- or 32-byte AES key |
| `SessionVault.Decrypt` | src/main/java/art/resources/SocialProfileResource.java:192-198 | in the model, succeeds exactly with a usable key that sealed the blob (an idealised cipher; see Left out) |
| `SessionVault.RoundTrip` | src/main/java/art/resources/SocialProfileResource.java:184-198 | decrypting what was encrypted under the same usable key gives the plaintext back |
| `SessionVault.OtherKeyFails` | src/main/java/art/resources/SocialProfileResource.java:192-198 | in the model, a blob sealed under one key never opens under another (an idealised cipher; see Left out) |
| `SessionVault.DefaultKeyIsUsable` | src/main/java/art/resources/SocialProfileResource.java:34-35 | the default key "defaultkey123456" is a 128-bit AES key |
| `SocialProfiles.BlueskyUrl` | src/main/java/art/resources/SocialProfileResource.java:55 | the profile URL is the fixed prefix followed by the handle |
| `SocialProfiles.BlueskyUrlInjective` | src/main/java/art/resources/SocialProfileResource.java:55 | distinct handles give distinct profile URLs |
| `SocialProfiles.FirstBlueskyIndex` | src/main/java/art/resources/SocialProfileResource.java:97-99 | the first profile whose platform is exactly "bluesky", none exactly when there is none |
| `SocialProfiles.CountBluesky` | src/main/java/art/resources/SocialProfileResource.java:97-106 | the number of exact-"bluesky" profiles; zero exactly when there is none |
| `SocialProfiles.CountBlueskyAppend` | src/main/java/art/resources/SocialProfileResource.java:104 | appending one profile adds one to the count exactly when it is a Bluesky profile |
| `SocialProfiles.FirstVerifiedBlueskyIndex` | src/main/java/art/resources/SocialProfileResource.java:156-159 | the first profile that is exactly "bluesky" and verified, none exactly when there is none |
| `SocialProfiles.FirstMatchIndex` | src/main/java/art/resources/SocialProfileResource.java:218-221 | the first profile matching platform and username ignoring case, none exactly when nothing matches |
| `SocialProfiles.RemoveFirstMatch` | src/main/java/art/resources/SocialProfileResource.java:230 | `remove(profile)` on the first match removes exactly that position |
| `SocialProfiles.FindOrCreateBlueskyProfile` | src/main/java/art/resources/SocialProfileResource.java:97-106 | an existing exact-"bluesky" profile is reused and the list is unchanged; otherwise one fresh unverified, non-syncing Bluesky profile owned by the account is appended |
| `SocialProfiles.AppendedIsOnlyBluesky` | src/main/java/art/resources/SocialProfileResource.java:97-106 | the profile appended to a list without one becomes its first and only Bluesky profile, so linking never grows the count beyond one |
| `SocialProfiles.LinkProfile` | src/main/java/art/resources/UserResource.java:427-441 | find or create the first Bluesky profile, then it holds the handle, URL, DID and display name and is verified; session fields and all other profiles untouched |
| `SocialProfiles.Overwrite` | src/main/java/art/resources/SocialProfileResource.java:108-112 | the five link assignments make the profile linked to the request |
| `SocialProfiles.ProfileGuard` | src/main/java/art/resources/SocialProfileResource.java:204-216 | 404 exactly when the account is missing, then 403 exactly when the caller is not its owner; pass otherwise |
| `SocialProfiles.LinkGuard` | src/main/java/art/resources/SocialProfileResource.java:81-95 | 401 exactly without principal or for an anonymous identity, then 404 exactly when no account carries the principal's name (same checks at UserResource.java:411-425) |
| `SocialProfiles.LinkTarget` | src/main/java/art/resources/SocialProfileResource.java:88-89 | the profiles a link may change: the caller's own once the guard passes, none otherwise |
| `SocialProfiles.PromoteArtist` | src/main/java/art/resources/SocialProfileResource.java:133-137 | an artist ends verified; any other account keeps its flag |
| `SocialProfiles.AddBluesky` | src/main/java/art/resources/SocialProfileResource.java:42-73 | after the account and ownership guards, exactly one fresh Bluesky profile appended with no dedupe (username, URL, verified flag from the request); with no DID, display name or session blob and unable to sync; an artist becomes verified only with a verified request, the flag is never cleared; nothing changes on an error (same code at UserResource.java:374-403) |
| `SocialProfiles.UnlinkSocialAccount` | src/main/java/art/resources/SocialProfileResource.java:204-246 | after the guards, 404 with nothing removed when no profile matches platform and username ignoring case; otherwise exactly the first match is removed; an artist loses `verified` only for a "bluesky" path, a verified removed profile and no verified Bluesky profile left; no other account changes (same code at UserResource.java:459-499) |
| `SocialProfileResource.StoreSession` | src/main/java/art/resources/SocialProfileResource.java:114-129 | `canSync` iff the session data is non-blank after trim and the key seals it, and then the sealed credential is stored; otherwise the stored blob is left as it was |
| `SocialProfileResource.WriteLink` | src/main/java/art/resources/SocialProfileResource.java:108-129 | the chosen profile ends linked to the request with the sync outcome of `StoreSession` |
| `SocialProfileResource.LinkAccount` | src/main/java/art/resources/SocialProfileResource.java:97-131 | reuse of the first exact-"bluesky" profile or append of a fresh one, then that profile is linked, with `canSync` iff the credential sealed; no other profile changes |
| `SocialProfileResource.LinkBlueskyAccount` | src/main/java/art/resources/SocialProfileResource.java:80-141 | guard errors change nothing; otherwise the caller's profile list grows by at most one and only when it had no Bluesky profile, the chosen profile is linked with sync exactly when the credential sealed, an artist ends verified, and no other account or profile changes |
| `SocialProfileResource.SessionOf` | src/main/java/art/resources/SocialProfileResource.java:155-181 | only the first exact-"bluesky" verified profile counts: 404 exactly without one; then 404 when it cannot sync or has no blob; otherwise 500 exactly when the blob does not decrypt, and else success with the decrypted plaintext |
| `SocialProfileResource.GetBlueskySessionForSync` | src/main/java/art/resources/SocialProfileResource.java:146-182 | the account and ownership checks, then the selection of `SessionOf`; a credential is only ever released to its owner |
| `SocialProfileResource.FirstLinkedProfileDecides` | src/main/java/art/resources/SocialProfileResource.java:156-159 | when the first Bluesky profile is verified it is also the first verified one |
| `SocialProfileResource.LinkedSessionIsReleased` | src/main/java/art/resources/SocialProfileResource.java:114-181 | right after a link the sync endpoint releases exactly the credential the link sealed, or 404 when it did not seal |
| `SocialProfileResource.LaterProfilesIgnored` | src/main/java/art/resources/SocialProfileResource.java:156-169 | profiles after the first verified Bluesky profile never change what is released, even ones that could sync |
| `UserResource.LinkBlueskyAccount` | src/main/java/art/resources/UserResource.java:410-453 | guard errors change nothing; otherwise find-or-create of the first Bluesky profile, which ends linked and verified with session fields untouched (a fresh one cannot sync), the list grows only when it had no Bluesky profile, an artist ends verified, nothing else changes |
| `UserResource.AddTagCheck` | src/main/java/art/resources/UserResource.java:507-522 | artist, then ownership, then 400 exactly for a null or blank name, then 404 exactly when no active tag has the name; pass otherwise |
| `UserResource.AddTagToArtist` | src/main/java/art/resources/UserResource.java:506-527 | on success the named tag is in the artist's related tags, appended unless present; no other account changes; nothing changes on an error |
| `UserResource.RemoveTagCheck` | src/main/java/art/resources/UserResource.java:534-548 | artist, then ownership, then 404 exactly for an unknown tag, then 404 exactly when the artist does not hold it; pass otherwise |
| `UserResource.RemoveTagFromArtist` | src/main/java/art/resources/UserResource.java:533-553 | on success the tag was held and its first occurrence leaves the artist's tags; nothing else changes |
| `UserResource.AddThenRemoveRestores` | src/main/java/art/resources/UserResource.java:506-553 | adding a tag the artist did not hold and removing it restores the artist's tags |
| `UserResource.UpdateCommissionStatus` | src/main/java/art/resources/UserResource.java:560-578 | guard errors, then 400 exactly when `isOpen` is null, both without change; otherwise the artist's flag becomes `isOpen` and is echoed; no other account changes |
| `UserResource.GetArtists` | src/main/java/art/resources/UserResource.java:133-153 | whichever of the four branches runs, exactly the artists selected by every parameter present, all artists with none |
| `UserResource.BothFiltersIntersect` | src/main/java/art/resources/UserResource.java:138-142 | both parameters together select the intersection of what each selects alone |
| `CommissionCardResource.GetCommissionCard` | src/main/java/art/resources/CommissionCardResource.java:29-40 | 404 exactly when the artist check fails, then 404 exactly without a card, else the artist's card; no ownership check (same code at UserResource.java:177-186) |
| `CommissionCardResource.CardGuard` | src/main/java/art/resources/CommissionCardResource.java:81-93 | artist, ownership, then card-exists, the first failure being the answer |
| `CommissionCardResource.CreateCardCheck` | src/main/java/art/resources/CommissionCardResource.java:47-59 | artist, ownership, then 409 exactly when the artist already has a card |
| `CommissionCardResource.CreateCommissionCard` | src/main/java/art/resources/CommissionCardResource.java:46-75 | nothing changes on an error; otherwise a fresh card with the request's title and description and an empty element list is appended, and it and the artist refer to each other (same code at UserResource.java:193-220) |
| `CommissionCardResource.DeleteCommissionCard` | src/main/java/art/resources/CommissionCardResource.java:80-98 | the artist's card link is cleared only after all three guards pass; no other account changes (UserResource.java:352-367) |
| `CommissionCardResource.CreateElementCheck` | src/main/java/art/resources/CommissionCardResource.java:107-125 | the three guards, then 400 exactly for a null or blank title, then exactly for a null or blank description |
| `CommissionCardResource.CreateCommissionCardElement` | src/main/java/art/resources/CommissionCardResource.java:105-142 | nothing changes on an error; otherwise a fresh element with trimmed, non-empty title and description, the price, and a copy of the URL list (empty for null) is appended to the artist's card and the element table; no other card changes (UserResource.java:227-261) |
| `CommissionCardResource.ElementGuard` | src/main/java/art/resources/CommissionCardResource.java:154-170 | the three guards, then 404 exactly when the element is missing or belongs to another card |
| `CommissionCardResource.ApplyUpdates` | src/main/java/art/resources/CommissionCardResource.java:172-194 | only present keys change: a number sets the price and null clears it, any other price is ignored; a list replaces the URLs, anything else is ignored; title and description take the string or null given |
| `CommissionCardResource.EmptyUpdateChangesNothing` | src/main/java/art/resources/CommissionCardResource.java:172-194 | an empty update body leaves every field as it was |
| `CommissionCardResource.ApplyUpdatesIdempotent` | src/main/java/art/resources/CommissionCardResource.java:172-194 | sending the same update twice is sending it once |
| `CommissionCardResource.UpdateElementCheck` | src/main/java/art/resources/CommissionCardResource.java:154-192 | the element guards, then 500 exactly when a title or description value is neither a string nor null |
| `CommissionCardResource.UpdateCommissionCardElement` | src/main/java/art/resources/CommissionCardResource.java:149-199 | nothing changes on an error; otherwise the element's fields are `ApplyUpdates` of the old ones and no other element changes (UserResource.java:268-316) |
| `CommissionCardResource.WriteFields` | src/main/java/art/resources/CommissionCardResource.java:172-194 | the four key-by-key assignments produce exactly `ApplyUpdates` |
| `CommissionCardResource.DeleteCommissionCardElement` | src/main/java/art/resources/CommissionCardResource.java:205-232 | nothing changes on an error; otherwise the element leaves the artist's card list (a null list stays null) and the element table, no other card changes (UserResource.java:322-346) |
| `CommissionCardResource.Detach` | src/main/java/art/resources/CommissionCardResource.java:227-228 | `removeElement` then `delete`: the element's first occurrence leaves both lists |
| `Register.RegistrationCheck` | src/main/java/art/resources/RegisterResource.java:26-38 | 400 exactly when name, password or email is null or blank, checked first; then 409 exactly when the name or the email is taken; pass otherwise |
| `Register.RegisterUser` | src/main/java/art/resources/RegisterResource.java:24-63 | nothing is created on an error; otherwise exactly one fresh account is appended, an unverified artist when `isArtist` is set and a plain user otherwise, and the same request is then refused as already registered |

## Left out

- Password hashing (`BcryptUtil.bcryptHash`) is a foreign call and is not part of the model; no account field stores the hash.
- The AES cipher and Base64 coding are not modelled. A sealed blob records its key and plaintext, and only the conditions under which `Cipher` throws are modelled.
- `SessionVault.Decrypt` and `SessionVault.OtherKeyFails`: decrypting under a key other than the sealing key is modelled as always failing. The real `Cipher.getInstance("AES")` (ECB with PKCS#5 padding) fails only when the decrypted padding is invalid; for some wrong keys of valid length the padding happens to be valid, and it returns garbage bytes that `getBlueskySessionForSync` would release with 200. `SocialProfileResource.SessionOf`'s tie between a success and the sealed blob rests on the same idealisation.
- HTTP plumbing is replaced by the `Error` values and their statuses: response bodies, DTO construction (`CommissionCardDto`, `CommissionCardElementDto`, `ArtistDto`, `UserDto`) and log output.
- `LocalDateTime.now()` is one `now` parameter per call. `createOrUpdate` reads the clock twice for a new row; the model gives both fields the same reading.
- Persistence: Hibernate cascades and orphan removal are not modelled, and neither are transaction isolation or concurrent requests. A deleted card stays in the card table with its elements. An unlinked profile leaves the account's list but is not deleted elsewhere. A `Following` row keeps its `followed` link after the profile that justified it is unlinked.
- `CommissionCardResource.ElementGuard`: the source compares the two cards by id. The model compares the instances, which agrees within one persistence context.
- `Followings.FindCoplaUserByBlueskyHandle`: the JPQL join's `firstResult()` has no defined order; the model picks the first owner in table order.
- A null request body, and null `blueskyHandle`/`blueskyDid`/`blueskyDisplayName` fields, are not modelled (the source throws or stores null); link request fields are strings. The same holds for the `SocialProfileDto.username` that `addBluesky` reads: the source would store a null username and the URL "https://bsky.app/profile/null", while `ProfileRequest.username` is always a string.
- `CommissionCardResource.UpdateCommissionCardElement`: a JSON list with non-string entries, and `Number.doubleValue()` rounding, are not modelled; a number is stored as the real it denotes.
- `SocialProfileResource.SessionOf`: `src/main/java/art/entities/SocialProfile.java` declares neither `canSync` nor `encryptedSessionData`, so `canSync` is taken as a primitive `boolean` that defaults to false. A fresh profile (from `addBluesky`, or from the link handlers before the session is stored) therefore cannot sync and answers 404. Were the field a nullable `Boolean`, `!blueskyProfile.canSync` on an unset value would throw and the endpoint would answer 500 instead.
- `EqualsIgnoreCase` folds ASCII letters only; Java's full Unicode case folding is not modelled.
- `SocialProfiles.FindOrCreateBlueskyProfile`: the count of Bluesky profiles after the call is not in its contract; `AppendedIsOnlyBluesky` states it for the appended case.
- `Artist.getLowestPrice`, `Artist.getCommissionCard`/`setCommissionCard`/`addTagToArtist`, `CommissionCard.delete`, `CommissionCardElement.add`, `User.findAllUsers` and the `getAllUsers`, `me` and `getUser` handlers are not part of this model: they are plain lookups, DTO mappings or floating-point minimums.
- `ImageResource.java`, `AppLifecycleBean.java`, the galleries and artworks, and the web UI are not part of this model. The startup seed data marks artists verified without any Bluesky profile, so "verified implies a verified Bluesky profile" is not claimed as a global invariant.
- The full-replace sync endpoint the web UI calls is not among the source files; only the per-handle upsert is modelled.
- `Register.RegisterUser`: the 500 answer for an exception thrown while persisting is not modelled; persisting always succeeds.
