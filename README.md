# kapsule-server: landmark store and capsule endpoints in Dafny

This project models two parts of the kapsule-server time-capsule backend.

1. **The landmark service.** It operates on the capsule table. A capsule is a geotagged, date-locked post. Capsules of type 2 are "landmarks".
   - `LandmarkService` is a class. It holds the CAPSULES table and the image and shared-key rows that depend on a capsule, as maps keyed by generated id, plus the two identity counters.
   - Its methods list landmarks, fetch one, create one, update one and delete one.
   - Each method states the new tables in terms of the old ones: what a failure leaves unchanged, which row a success writes, and what else stays as it was.
2. **The capsule controller.** `CapsuleController` turns the outcome of its service calls into an HTTP status and a message.
   - Each handler is a pure, total function of the login state and an abstract outcome: a returned value, an `IllegalArgumentException`, a `SecurityException`, or any other exception.

`Capsule` is an immutable record. A Java `Capsule` object built by `builder()` or `toBuilder()` may still hold nulls, so the model gives it a separate datatype, `CapsuleDraft`, with optional fields.
- `Entity.Row` is what the table stores. It refuses a draft when a `nullable = false` column is null, or when a title, address or capsule code is longer than the default 255-character string column.
- `Entity.ToBuilder` and `Entity.Row` are proved to be inverses on every capsule whose strings fit their columns, as every stored row does.
- Deleting a capsule removes its dependent image and shared-key rows (`cascade = REMOVE`). `Entity.CascadeRemove` states this, and the lemmas show that no dependent row is left pointing at a missing capsule.

Behaviour reproduced literally:
- `findLandmarkById` does not filter by type, because its filter is commented out. `updateLandmark` does filter.
- `deleteLandmark` checks the *owner's* role and ignores the caller. So an admin-owned capsule can be deleted by anyone, and a non-admin owner cannot delete their own landmark. `Landmark.UpdateAndDeleteRulesDiffer` states both cases for every capsule and member, and `Landmark.RulesDifferOnSomeCapsule` shows that each occurs. The authorization rules themselves are `Landmark.MayUpdate` and `Landmark.MayDelete`.

Further behaviours of the code that the model keeps:
- The 401 response of capsule creation carries the body "로그인 상태를 확인해주세요." (CapsuleController.java:50-53).
- An update replaces title, content, address, longitude, latitude and unlockDate, and keeps capsuleCode, capsuleType and member (LandmarkService.java:92-99).
- The update's `save` call gets a copy that keeps the row's id, so it is a merge that writes only when the transaction commits, after the method's try/catch (LandmarkService.java:101-105). A null edited column therefore fails with the persistence layer's exception rather than "랜드마크 수정 중 오류가 발생했습니다.".

Modules: `Wrappers` (Option), `Outcomes` (exception kinds, Outcome), `Entity` (Capsule.java), `Landmark` (LandmarkService.java), `Controller` (CapsuleController.java).

## Model

| member | source | states |
|---|---|---|
| Entity.ToBuilder | src/main/java/net/kosa/kapsuleserver/entity/Capsule.java:27-31 | `toBuilder()` yields a builder holding each of the capsule's fields, its id included, so every not-null column is set; the database accepts it iff the capsule's strings fit their columns |
| Entity.Row | src/main/java/net/kosa/kapsuleserver/entity/Capsule.java:34-65 | a draft is stored iff every `nullable = false` column (address, unlockDate, capsuleCode, longitude, latitude, title, content, capsuleType, member) is set and the title, address and capsule code fit the default 255-character column (content is a `@Lob`); the stored row's builder is the draft again, so every stored capsule has an owning member |
| Entity.ToBuilderRoundTrip | src/main/java/net/kosa/kapsuleserver/entity/Capsule.java:27-31 | storing an unmodified `toBuilder()` copy of a stored capsule gives back the same capsule |
| Entity.ToBuilderKeepsOtherFields | src/main/java/net/kosa/kapsuleserver/entity/Capsule.java:27-31 | a `toBuilder()` copy of a stored capsule that overrides the title with one that fits the column stores as the same capsule with only the title changed |
| Entity.CascadeRemove | src/main/java/net/kosa/kapsuleserver/entity/Capsule.java:67-71 | removing a capsule removes exactly its dependent rows; every other dependent row stays unchanged |
| Entity.CascadeKeepsReferences | src/main/java/net/kosa/kapsuleserver/entity/Capsule.java:63-71 | after the cascade, every remaining dependent row still refers to a stored capsule |
| Landmark.ConvertMemberToDTO | src/main/java/net/kosa/kapsuleserver/service/LandmarkService.java:150-157 | the member DTO carries id, nickname and kakaoId; its role string is "ROLE_ADMIN" iff the member is an admin |
| Landmark.ConvertToDTO | src/main/java/net/kosa/kapsuleserver/service/LandmarkService.java:129-149 | the DTO carries the capsule's id, type, title, address, capsule code, unlock date and coordinates, and the owner's member DTO; its content is whatever JSON parsing yields, null when parsing fails, and every other field is filled either way |
| Landmark.ConvertAllToDTO | src/main/java/net/kosa/kapsuleserver/service/LandmarkService.java:122-126 | one DTO per capsule, in the same order |
| Landmark.MayUpdate | src/main/java/net/kosa/kapsuleserver/service/LandmarkService.java:85 | the capsule's owner (same member id) may update it, any admin may, and nobody else may |
| Landmark.MayDelete | src/main/java/net/kosa/kapsuleserver/service/LandmarkService.java:114 | a capsule may be deleted iff its owner is an admin, whoever the caller is |
| Landmark.UpdateAndDeleteRulesDiffer | src/main/java/net/kosa/kapsuleserver/service/LandmarkService.java:85-116 | for every capsule and member: a non-admin owner may update but not delete; a non-admin stranger may delete an admin-owned capsule but not update it |
| Landmark.RulesDifferOnSomeCapsule | src/main/java/net/kosa/kapsuleserver/service/LandmarkService.java:85-116 | both cases occur: some capsule and member can update but not delete, and some can delete but not update |
| Landmark.TypeFor | src/main/java/net/kosa/kapsuleserver/service/LandmarkService.java:62 | a new capsule's type is 2 iff its author is ROLE_ADMIN, and 1 otherwise |
| Landmark.NewLandmark | src/main/java/net/kosa/kapsuleserver/service/LandmarkService.java:53-63 | the created row is owned by the author; title, address, coordinates and unlock date come from the DTO; it has the generated code and the encoded content; the type is 2 iff the author is an admin; the row is refused iff one of those DTO fields is null or the title, address or code is longer than 255 characters |
| Landmark.UpdatedLandmark | src/main/java/net/kosa/kapsuleserver/service/LandmarkService.java:92-99 | the updated row replaces title, content, address, longitude, latitude and unlockDate; it keeps id, member, capsuleCode and capsuleType; it is refused iff an edited field is null, the new title or address is longer than 255 characters, or the kept capsule code is |
| Landmark.SavedLandmarkReadsBack | src/main/java/net/kosa/kapsuleserver/service/LandmarkService.java:50-66 | reading a created landmark back yields the DTO's fields, its id and its type; the content comes back equal whenever the JSON encoding is lossless for it |
| Landmark.ImageRows | src/main/java/net/kosa/kapsuleserver/service/LandmarkService.java:69-71 | one image row per uploaded file, under consecutive keys, each referring to the new capsule |
| Landmark.LandmarkService.constructor | src/main/java/net/kosa/kapsuleserver/service/LandmarkService.java:21-26 | the service starts over the tables as the database holds them; the foreign keys hold |
| Landmark.LandmarkService.FindByCapsuleType | src/main/java/net/kosa/kapsuleserver/service/LandmarkService.java:32 | returns every stored capsule of the given type, each exactly once, and nothing else |
| Landmark.LandmarkService.FindAllLandmarks | src/main/java/net/kosa/kapsuleserver/service/LandmarkService.java:28-34 | one DTO for every stored capsule of type 2 and for nothing else, with no duplicates; the store is not modified |
| Landmark.LandmarkService.FindLandmarkById | src/main/java/net/kosa/kapsuleserver/service/LandmarkService.java:36-43 | an absent id fails with IllegalArgument "존재하지 않는 랜드마크입니다."; a present id succeeds whatever its type; the store is not modified |
| Landmark.LandmarkService.Save | src/main/java/net/kosa/kapsuleserver/service/LandmarkService.java:66 | `save` merges into the draft's own row when that row exists, and otherwise inserts under the next identity value; it writes nothing when a not-null column is null or a string is too long for its column |
| Landmark.LandmarkService.StoreImages | src/main/java/net/kosa/kapsuleserver/service/LandmarkService.java:69-71 | the image store adds exactly the new capsule's image rows |
| Landmark.LandmarkService.SaveLandmark | src/main/java/net/kosa/kapsuleserver/service/LandmarkService.java:45-76 | on success, exactly one row is added under a fresh id (the NewLandmark row) and no other row changes; images are stored only for a non-null, non-empty list; every failure is one RuntimeException "랜드마크 생성 중 오류가 발생했습니다." with all tables and both identity counters unchanged |
| Landmark.LandmarkService.UpdateLandmark | src/main/java/net/kosa/kapsuleserver/service/LandmarkService.java:78-106 | an absent id or a type other than 2 gives IllegalArgument "존재하지 않는 랜드마크입니다."; a caller who is neither owner nor admin gives Security "랜드마크를 수정할 권한이 없습니다."; a failure while encoding gives a RuntimeException "랜드마크 수정 중 오류가 발생했습니다."; a null or too-long edited column fails at commit with some other exception; every failure leaves the store unchanged; on success only that row is replaced, by the UpdatedLandmark copy, and its DTO is returned; the identity counters and the dependent rows never change |
| Landmark.LandmarkService.DeleteById | src/main/java/net/kosa/kapsuleserver/service/LandmarkService.java:118 | removes the capsule and, by cascade, its images and shared keys; the foreign keys still hold afterwards |
| Landmark.LandmarkService.DeleteLandmark | src/main/java/net/kosa/kapsuleserver/service/LandmarkService.java:108-119 | an absent id gives not-found; an owner who is not an admin gives Security "랜드마크를 삭제할 권한이 없습니다.", whoever the caller is; otherwise exactly that capsule and its dependents are removed; failures change nothing |
| Controller.MessageBody | src/main/java/net/kosa/kapsuleserver/controller/CapsuleController.java:116-118 | `body(e.getMessage())` is the message, or an empty body when the message is null |
| Controller.SaveCapsule | src/main/java/net/kosa/kapsuleserver/controller/CapsuleController.java:39-77 | a null or empty kakaoId gives 401 with the login message; a completed save gives 201 with the success message; any exception gives 500 with the fixed prefix followed by the exception's message; no other status is possible |
| Controller.FindMyCapsule | src/main/java/net/kosa/kapsuleserver/controller/CapsuleController.java:82-99 | an empty kakaoId gives 401; success gives 200 with the service's list; any failure gives 500 with the fixed message |
| Controller.DeleteCapsule | src/main/java/net/kosa/kapsuleserver/controller/CapsuleController.java:102-124 | an empty kakaoId gives 401; success gives 204 with no body; IllegalArgument gives 404 with its message; every other exception, SecurityException included, gives 500 |
| Controller.GetCapsuleDetail | src/main/java/net/kosa/kapsuleserver/controller/CapsuleController.java:127-152 | not logged in gives 401; Security gives 403 with its message; IllegalArgument gives 404 with its message; any other exception gives 500; success gives 200 with the detail |
| Controller.LoginCheckedFirst | src/main/java/net/kosa/kapsuleserver/controller/CapsuleController.java:49-133 | without a login, no service outcome can change any handler's response: the 401 check comes first |
| Controller.DeleteAndDetailFailures | src/main/java/net/kosa/kapsuleserver/controller/CapsuleController.java:116-151 | delete and detail map every failure to the same status, except SecurityException: delete gives 500 for it, detail gives 403 |

## Left out

- Jackson: `writeValueAsString` and `readValue` are passed to the service as the functions `toJson` and `fromJson`, each returning an Option (None means it threw). No JSON round-trip is claimed; `SavedLandmarkReadsBack` takes losslessness as a premise.
- Member, role and key lookups. `MemberService`, `LoginUtil`, `CapsuleService.createRandomCode` and the internals of `CapsuleService.saveCapsule`, `findMyCapsule`, `deleteCapsule` and `findCapsuleById` are not part of this model. They appear as inputs: the member, the login flag, the kakaoId, the capsule code, and the abstract outcome of each handler's calls. The code's length and alphabet are not asserted.
- Controller parsing and floats: `LocalDate.parse`, `Double.parseDouble` and the `(float)` casts are not modelled. Their exceptions are part of the outcome given to `SaveCapsule`. Dates and coordinates are opaque values that are only copied.
- ImageService, multipart handling and upload storage are I/O. `imageService.save` appears only as the image rows it adds (one per file) and as a flag saying whether it completes.
- Transactions: only "all tables unchanged on failure" is modelled. Rolling back also resets the identity counter in the model; a real database may not reset it.
- Audit timestamps from `BaseEntity`, Spring wiring, request routing and DTO builder details beyond the field copies are not modelled.
- A null `member` argument, a null member id, and a `save` of a draft whose id is set but not stored are not reached by the modelled calls. The model passes members as values and does not model these cases.
- A null capsule id: `findById(null)` fails with Spring Data's own exception rather than the not-found IllegalArgumentException (LandmarkService.java:39, 81, 111). The model's ids are integers and cannot be null.
- An exception thrown by `loginUtil.isLogin()` itself: that call sits inside the detail handler's try (CapsuleController.java:130), so a SecurityException there would give 403. The model's login flag is a boolean and cannot throw.
- Column lengths are counted in characters, as the database counts them. A database that silently truncates an over-long string instead of refusing it is not modelled; neither is any other refusal by the database beyond null columns and the 255-character string columns.
- Landmark.LandmarkService.FindByCapsuleType: the model scans the key range, so rows come back in key order. The repository query itself promises no order.
- The role enum shows only ROLE_ADMIN. The other role is named ROLE_USER here, and its name is not compared anywhere.
- `@RequestPart("kakaoId")`, `@RequestParam String kakaoId` and `@RequestAttribute("kakaoId")` are all required by Spring, so a null kakaoId is refused before `saveCapsule`, `findMyCapsule` or `deleteCapsule` runs. The model still gives each handler's own null check.
- Landmark.LandmarkService.UpdateLandmark: when an edited column is null or too long, the model says only that the call throws an exception other than IllegalArgument or Security and changes nothing. The exception's class and message come from the persistence layer at commit and are not modelled.
