/**
 * LandmarkService: landmarks are capsules of type 2. The service lists them,
 * fetches one, creates one (type 2 only for an admin author), updates one by a
 * toBuilder copy, and deletes one; the capsule table and its dependent tables
 * are held as maps keyed by the generated id.
 */
module Landmark {
  import opened Wrappers
  import opened Outcomes
  import opened Entity

  /** LandmarkDTO.Content, the structured landmark text; its fields are not part of this model. */
  type Content = map<string, string>

  datatype MemberDTO = MemberDTO(id: int, nickname: string, kakaoId: string, role: string)

  /** The transport object; every field may be null, and a request may leave any of them out. */
  datatype LandmarkDTO = LandmarkDTO(
    id: Option<int>,
    member: Option<MemberDTO>,
    title: Option<string>,
    content: Option<Content>,
    address: Option<string>,
    capsuleCode: Option<string>,
    capsuleType: Option<int>,
    unlockDate: Option<Date>,
    longitude: Option<Float32>,
    latitude: Option<Float32>,
    images: Option<seq<Upload>>)

  const PersonalType: int := 1
  const LandmarkType: int := 2

  const NotFoundMessage: string := "존재하지 않는 랜드마크입니다."
  const UpdateDeniedMessage: string := "랜드마크를 수정할 권한이 없습니다."
  const DeleteDeniedMessage: string := "랜드마크를 삭제할 권한이 없습니다."
  const CreateFailedMessage: string := "랜드마크 생성 중 오류가 발생했습니다."
  const UpdateFailedMessage: string := "랜드마크 수정 중 오류가 발생했습니다."

  /** String.valueOf(role): the enum constant's name. */
  function RoleName(r: Role): string {
    match r
    case RoleUser => "ROLE_USER"
    case RoleAdmin => "ROLE_ADMIN"
  }

  /** convertMemberToDTO: the member's id, nickname and Kakao id, and its role by name. */
  function ConvertMemberToDTO(m: Member): (d: MemberDTO)
    ensures d.id == m.id && d.nickname == m.nickname && d.kakaoId == m.kakaoId
    ensures d.role == "ROLE_ADMIN" <==> m.role == RoleAdmin
  {
    MemberDTO(m.id, m.nickname, m.kakaoId, RoleName(m.role))
  }

  /**
   * convertToDTO for one capsule. The stored content is parsed with `fromJson`;
   * when that fails the DTO's content is null and every other field is still
   * filled. Images are not carried.
   */
  function ConvertToDTO(c: Capsule, fromJson: string -> Option<Content>): (d: LandmarkDTO)
    ensures d.id == Some(c.id) && d.capsuleType == Some(c.capsuleType)
    ensures d.member == Some(ConvertMemberToDTO(c.member))
    ensures d.title == Some(c.title) && d.address == Some(c.address) && d.capsuleCode == Some(c.capsuleCode)
    ensures d.unlockDate == Some(c.unlockDate) && d.longitude == Some(c.longitude) && d.latitude == Some(c.latitude)
    ensures d.content == fromJson(c.content) && d.images.None?
  {
    LandmarkDTO(
      id := Some(c.id),
      member := Some(ConvertMemberToDTO(c.member)),
      title := Some(c.title),
      content := fromJson(c.content),
      address := Some(c.address),
      capsuleCode := Some(c.capsuleCode),
      capsuleType := Some(c.capsuleType),
      unlockDate := Some(c.unlockDate),
      longitude := Some(c.longitude),
      latitude := Some(c.latitude),
      images := None)
  }

  /** convertToDTO for a list: one DTO per capsule, in the list's order. */
  function ConvertAllToDTO(rows: seq<Capsule>, fromJson: string -> Option<Content>): (ds: seq<LandmarkDTO>)
    ensures |ds| == |rows|
    ensures forall i :: 0 <= i < |rows| ==> ds[i] == ConvertToDTO(rows[i], fromJson)
  {
    if rows == [] then [] else [ConvertToDTO(rows[0], fromJson)] + ConvertAllToDTO(rows[1..], fromJson)
  }

  /** Update is allowed to the capsule's owner (by member id) and to any admin. */
  predicate MayUpdate(c: Capsule, caller: Member): (b: bool)
    ensures caller.id == c.member.id ==> b
    ensures caller.role == RoleAdmin ==> b
    ensures caller.id != c.member.id && caller.role != RoleAdmin ==> !b
  {
    c.member.id == caller.id || caller.role == RoleAdmin
  }

  /** Delete is allowed when the capsule's OWNER is an admin; the caller is not consulted. */
  predicate MayDelete(c: Capsule, caller: Member): (b: bool)
    ensures b <==> c.member.role == RoleAdmin
  {
    c.member.role == RoleAdmin
  }

  /**
   * The rules differ: a non-admin owner may update but not delete, and a
   * non-admin stranger may delete an admin's capsule but not update it.
   */
  lemma UpdateAndDeleteRulesDiffer(c: Capsule, m: Member)
    ensures m == c.member && m.role != RoleAdmin ==> MayUpdate(c, m) && !MayDelete(c, m)
    ensures c.member.role == RoleAdmin && m.id != c.member.id && m.role != RoleAdmin ==>
      !MayUpdate(c, m) && MayDelete(c, m)
  {
  }

  /** Both cases of UpdateAndDeleteRulesDiffer occur. */
  lemma RulesDifferOnSomeCapsule()
    ensures exists c: Capsule, m: Member :: MayUpdate(c, m) && !MayDelete(c, m)
    ensures exists c: Capsule, m: Member :: !MayUpdate(c, m) && MayDelete(c, m)
  {
    var user := Member(1, "owner", "k1", RoleUser);
    var stranger := Member(2, "stranger", "k2", RoleUser);
    var admin := Member(3, "admin", "k3", RoleAdmin);
    var c := Capsule(10, "", Date(2030, 1, 1), "", Float32(0), Float32(0), "", "", LandmarkType, user);
    UpdateAndDeleteRulesDiffer(c, user);
    var d := c.(member := admin);
    UpdateAndDeleteRulesDiffer(d, stranger);
  }

  /** The type a new landmark gets: 2 for an admin author, 1 otherwise. */
  function TypeFor(author: Member): (t: int)
    ensures t == LandmarkType <==> author.role == RoleAdmin
    ensures t == PersonalType <==> author.role != RoleAdmin
  {
    if author.role == RoleAdmin then LandmarkType else PersonalType
  }

  /** The builder saveLandmark fills from the DTO, the author, the generated code and the encoded content. */
  function NewLandmarkDraft(dto: LandmarkDTO, author: Member, code: string, json: string): CapsuleDraft {
    EmptyBuilder.(
      member := Some(author),
      title := dto.title,
      content := Some(json),
      address := dto.address,
      longitude := dto.longitude,
      latitude := dto.latitude,
      unlockDate := dto.unlockDate,
      capsuleCode := Some(code),
      capsuleType := Some(TypeFor(author)))
  }

  /**
   * The row saveLandmark stores under the generated key `id`: owned by the
   * author, with the DTO's title, address, coordinates and unlock date; None
   * when one of those is null, or a string is too long for its column, and
   * the store refuses the row.
   */
  function NewLandmark(dto: LandmarkDTO, author: Member, code: string, json: string, id: int): (r: Option<Capsule>)
    ensures r.Some? <==>
      && dto.title.Some? && dto.address.Some? && dto.longitude.Some? && dto.latitude.Some? && dto.unlockDate.Some?
      && |dto.title.value| <= ColumnLength && |dto.address.value| <= ColumnLength && |code| <= ColumnLength
    ensures r.Some? ==>
      && r.value.id == id && r.value.member == author
      && r.value.title == dto.title.value && r.value.address == dto.address.value
      && r.value.longitude == dto.longitude.value && r.value.latitude == dto.latitude.value
      && r.value.unlockDate == dto.unlockDate.value
      && r.value.content == json && r.value.capsuleCode == code
      && (r.value.capsuleType == LandmarkType <==> author.role == RoleAdmin)
      && (r.value.capsuleType == PersonalType <==> author.role != RoleAdmin)
  {
    Row(NewLandmarkDraft(dto, author, code, json), id)
  }

  /** The toBuilder copy updateLandmark builds: the six edited fields overridden, everything else kept. */
  function UpdatedDraft(c: Capsule, dto: LandmarkDTO, json: string): CapsuleDraft {
    ToBuilder(c).(
      title := dto.title,
      content := Some(json),
      address := dto.address,
      longitude := dto.longitude,
      latitude := dto.latitude,
      unlockDate := dto.unlockDate)
  }

  /**
   * The row an update stores: title, content, address, coordinates and unlock
   * date replaced; id, owner, capsule code and type kept; None when an edited
   * field is null or a string is too long for its column (the kept capsule
   * code of a stored row always fits), and the store refuses the row.
   */
  function UpdatedLandmark(c: Capsule, dto: LandmarkDTO, json: string): (r: Option<Capsule>)
    ensures r.Some? <==>
      && dto.title.Some? && dto.address.Some? && dto.longitude.Some? && dto.latitude.Some? && dto.unlockDate.Some?
      && |dto.title.value| <= ColumnLength && |dto.address.value| <= ColumnLength && |c.capsuleCode| <= ColumnLength
    ensures r.Some? ==>
      && r.value.id == c.id && r.value.member == c.member
      && r.value.capsuleCode == c.capsuleCode && r.value.capsuleType == c.capsuleType
      && r.value.title == dto.title.value && r.value.content == json
      && r.value.address == dto.address.value && r.value.unlockDate == dto.unlockDate.value
      && r.value.longitude == dto.longitude.value && r.value.latitude == dto.latitude.value
  {
    Row(UpdatedDraft(c, dto, json), c.id)
  }

  /**
   * Reading back a saved landmark gives the DTO's title, address, coordinates
   * and unlock date, the type its author's role decides, and the DTO's content
   * whenever that content survives the JSON encoding.
   */
  lemma SavedLandmarkReadsBack(dto: LandmarkDTO, author: Member, code: string,
                               toJson: Option<Content> -> Option<string>,
                               fromJson: string -> Option<Content>, id: int)
    requires toJson(dto.content).Some?
    requires NewLandmark(dto, author, code, toJson(dto.content).value, id).Some?
    ensures var d := ConvertToDTO(NewLandmark(dto, author, code, toJson(dto.content).value, id).value, fromJson);
      && d.id == Some(id) && d.title == dto.title && d.address == dto.address
      && d.longitude == dto.longitude && d.latitude == dto.latitude && d.unlockDate == dto.unlockDate
      && d.capsuleType == Some(TypeFor(author))
      && d.member == Some(ConvertMemberToDTO(author))
      && (fromJson(toJson(dto.content).value) == dto.content ==> d.content == dto.content)
  {
  }

  /** imageService.save is called only for a non-null, non-empty image list. */
  predicate HandsOnImages(dto: LandmarkDTO) {
    dto.images.Some? && dto.images.value != []
  }

  /** The IMAGES rows stored for `files` under consecutive generated keys from `firstId`. */
  function ImageRows(firstId: int, capsuleId: int, files: seq<Upload>): (r: map<int, Image>)
    ensures forall k :: k in r <==> firstId <= k < firstId + |files|
    ensures forall j :: 0 <= j < |files| ==> r[firstId + j] == Image(capsuleId, files[j])
    ensures forall k :: k in r ==> ImageOwner(r[k]) == capsuleId
    decreases |files|
  {
    if files == [] then map[]
    else ImageRows(firstId + 1, capsuleId, files[1..])[firstId := Image(capsuleId, files[0])]
  }

  /** The key `save` stores a draft under: its own id when that row exists (merge), else the next generated one. */
  function SaveKey(d: CapsuleDraft, table: map<int, Capsule>, next: int): int {
    if d.id.Some? && d.id.value in table then d.id.value else next
  }

  /** The first value an identity column hands out. */
  const FirstId: int := 1

  class LandmarkService {
    /** CAPSULES, keyed by the generated id. */
    var capsules: map<int, Capsule>
    /** IMAGES, keyed by their own generated id. */
    var images: map<int, Image>
    /** SHARED_KEYS, keyed by their own id. */
    var sharedKeys: map<int, SharedKey>
    /** The next value of the capsule key's identity column. */
    var nextId: int
    /** The next value of the image key's identity column. */
    var nextImageId: int
    /** objectMapper.writeValueAsString for the DTO's content; None when it throws. */
    const toJson: Option<Content> -> Option<string>
    /** objectMapper.readValue into LandmarkDTO.Content; None when it throws or reads null. */
    const fromJson: string -> Option<Content>

    /** Each row is stored under its own id, below the identity counter, with strings that fit their columns, and every dependent row refers to a stored capsule. */
    ghost predicate Valid()
      reads this
    {
      && FirstId <= nextId
      && (forall k :: k in capsules ==> capsules[k].id == k && FirstId <= k < nextId && Fits(capsules[k]))
      && (forall k :: k in images ==> k < nextImageId)
      && RefersInto(images, ImageOwner, capsules.Keys)
      && RefersInto(sharedKeys, SharedKeyOwner, capsules.Keys)
    }

    /** The service over tables as the database holds them: keys match ids, strings fit their columns and foreign keys hold. */
    constructor (capsules0: map<int, Capsule>, images0: map<int, Image>, sharedKeys0: map<int, SharedKey>,
                 nextId0: int, nextImageId0: int,
                 toJson: Option<Content> -> Option<string>, fromJson: string -> Option<Content>)
      requires FirstId <= nextId0
      requires forall k :: k in capsules0 ==> capsules0[k].id == k && FirstId <= k < nextId0 && Fits(capsules0[k])
      requires forall k :: k in images0 ==> k < nextImageId0
      requires RefersInto(images0, ImageOwner, capsules0.Keys)
      requires RefersInto(sharedKeys0, SharedKeyOwner, capsules0.Keys)
      ensures Valid()
      ensures capsules == capsules0 && images == images0 && sharedKeys == sharedKeys0
      ensures nextId == nextId0 && nextImageId == nextImageId0
      ensures this.toJson == toJson && this.fromJson == fromJson
    {
      capsules, images, sharedKeys := capsules0, images0, sharedKeys0;
      nextId, nextImageId := nextId0, nextImageId0;
      this.toJson, this.fromJson := toJson, fromJson;
    }

    /**
     * capsuleRepository.findByCapsuleType: every stored capsule of type `t`,
     * each once, as a scan of the key range returns them (in key order).
     */
    method FindByCapsuleType(t: int) returns (rows: seq<Capsule>)
      requires Valid()
      ensures forall k :: k in capsules && capsules[k].capsuleType == t ==> capsules[k] in rows
      ensures forall i :: 0 <= i < |rows| ==>
        rows[i].id in capsules && capsules[rows[i].id] == rows[i] && rows[i].capsuleType == t
      ensures forall i, j :: 0 <= i < j < |rows| ==> rows[i].id < rows[j].id
    {
      rows := [];
      var id := FirstId;
      while id < nextId
        invariant FirstId <= id <= nextId
        invariant forall k :: k in capsules && k < id && capsules[k].capsuleType == t ==> capsules[k] in rows
        invariant forall i :: 0 <= i < |rows| ==>
          rows[i].id in capsules && rows[i].id < id && capsules[rows[i].id] == rows[i] && rows[i].capsuleType == t
        invariant forall i, j :: 0 <= i < j < |rows| ==> rows[i].id < rows[j].id
      {
        if id in capsules && capsules[id].capsuleType == t {
          rows := rows + [capsules[id]];
        }
        id := id + 1;
      }
    }

    /** findAllLandmarks: one DTO for each stored capsule of type 2 and for nothing else. */
    method FindAllLandmarks() returns (dtos: seq<LandmarkDTO>)
      requires Valid()
      ensures forall k :: k in capsules && capsules[k].capsuleType == LandmarkType ==>
        ConvertToDTO(capsules[k], fromJson) in dtos
      ensures forall i :: 0 <= i < |dtos| ==>
        && dtos[i].id.Some? && dtos[i].id.value in capsules
        && capsules[dtos[i].id.value].capsuleType == LandmarkType
        && dtos[i] == ConvertToDTO(capsules[dtos[i].id.value], fromJson)
      ensures forall i, j :: 0 <= i < j < |dtos| ==> dtos[i].id != dtos[j].id
    {
      var landmarks := FindByCapsuleType(LandmarkType);
      dtos := ConvertAllToDTO(landmarks, fromJson);
      forall k | k in capsules && capsules[k].capsuleType == LandmarkType
        ensures ConvertToDTO(capsules[k], fromJson) in dtos
      {
        var i :| 0 <= i < |landmarks| && landmarks[i] == capsules[k];
        assert dtos[i] == ConvertToDTO(capsules[k], fromJson);
      }
    }

    /** findLandmarkById: the stored capsule with that id, whatever its type; not found otherwise. */
    method FindLandmarkById(id: int) returns (r: Outcome<LandmarkDTO>)
      ensures id !in capsules ==> r == Threw(IllegalArgument(Some(NotFoundMessage)))
      ensures id in capsules ==> r == Returned(ConvertToDTO(capsules[id], fromJson))
    {
      if id !in capsules {
        return Threw(IllegalArgument(Some(NotFoundMessage)));
      }
      r := Returned(ConvertToDTO(capsules[id], fromJson));
    }

    /**
     * capsuleRepository.save: store the draft under its own id when that row
     * exists, else under the next generated id; refused, with nothing
     * written, when a not-null column is null.
     */
    method Save(d: CapsuleDraft) returns (saved: Option<Capsule>)
      requires Valid()
      modifies this`capsules, this`nextId
      ensures Valid()
      ensures saved == Row(d, SaveKey(d, old(capsules), old(nextId)))
      ensures saved.Some? ==> capsules == old(capsules)[saved.value.id := saved.value]
      ensures saved.None? ==> capsules == old(capsules) && nextId == old(nextId)
      ensures saved.Some? ==> nextId == if saved.value.id == old(nextId) then old(nextId) + 1 else old(nextId)
      ensures SaveKey(d, old(capsules), old(nextId)) !in old(capsules) ==> SaveKey(d, old(capsules), old(nextId)) == old(nextId)
    {
      var key := SaveKey(d, capsules, nextId);
      saved := Row(d, key);
      if saved.Some? {
        capsules := capsules[key := saved.value];
        if key == nextId {
          nextId := nextId + 1;
        }
      }
    }

    /** imageService.save, as the rows it adds: one IMAGES row per file, referring to the capsule. */
    method StoreImages(capsuleId: int, files: seq<Upload>)
      requires Valid() && capsuleId in capsules
      modifies this`images, this`nextImageId
      ensures Valid()
      ensures images == old(images) + ImageRows(old(nextImageId), capsuleId, files)
      ensures nextImageId == old(nextImageId) + |files|
    {
      images := images + ImageRows(nextImageId, capsuleId, files);
      nextImageId := nextImageId + |files|;
    }

    /**
     * saveLandmark. `code` is what createRandomCode(8) returned and
     * `imageServiceOk` whether imageService.save completes. On any failure
     * the transaction rolls back and the caller sees one RuntimeException.
     */
    method SaveLandmark(dto: LandmarkDTO, author: Member, code: string, imageServiceOk: bool) returns (r: Outcome<()>)
      requires Valid()
      modifies this
      ensures Valid()
      ensures r == Returned(()) || r == Threw(Other(Some(CreateFailedMessage)))
      ensures r.Returned? <==>
        && toJson(dto.content).Some?
        && NewLandmark(dto, author, code, toJson(dto.content).value, old(nextId)).Some?
        && (HandsOnImages(dto) ==> imageServiceOk)
      ensures r.Returned? ==>
        && old(nextId) !in old(capsules)
        && capsules == old(capsules)[old(nextId) := NewLandmark(dto, author, code, toJson(dto.content).value, old(nextId)).value]
        && images == old(images) + (if HandsOnImages(dto) then ImageRows(old(nextImageId), old(nextId), dto.images.value) else map[])
        && sharedKeys == old(sharedKeys)
        && nextId == old(nextId) + 1
        && nextImageId == old(nextImageId) + (if HandsOnImages(dto) then |dto.images.value| else 0)
      ensures r.Threw? ==> capsules == old(capsules) && images == old(images) && sharedKeys == old(sharedKeys)
      ensures r.Threw? ==> nextId == old(nextId) && nextImageId == old(nextImageId)
    {
      var capsules0, images0, nextId0, nextImageId0 := capsules, images, nextId, nextImageId;
      var json := toJson(dto.content);
      if json.None? {
        return Threw(Other(Some(CreateFailedMessage)));
      }
      var saved := Save(NewLandmarkDraft(dto, author, code, json.value));
      if saved.None? {
        return Threw(Other(Some(CreateFailedMessage)));
      }
      if HandsOnImages(dto) {
        if !imageServiceOk {
          // rollback
          capsules, images, nextId, nextImageId := capsules0, images0, nextId0, nextImageId0;
          return Threw(Other(Some(CreateFailedMessage)));
        }
        StoreImages(saved.value.id, dto.images.value);
      }
      r := Returned(());
    }

    /**
     * updateLandmark: only a stored landmark of type 2 can be updated, only by
     * its owner or an admin; the edited toBuilder copy replaces that row and
     * nothing else. The copy keeps the row's id, so `save` merges it and
     * writes at commit, after the method's catch: a null edited column then
     * fails with the persistence layer's own exception, not the wrapped one.
     */
    method UpdateLandmark(id: int, dto: LandmarkDTO, caller: Member) returns (r: Outcome<LandmarkDTO>)
      requires Valid()
      modifies this`capsules, this`nextId
      ensures Valid()
      ensures images == old(images) && sharedKeys == old(sharedKeys)
      ensures id !in old(capsules) || old(capsules)[id].capsuleType != LandmarkType ==>
        r == Threw(IllegalArgument(Some(NotFoundMessage)))
      ensures id in old(capsules) && old(capsules)[id].capsuleType == LandmarkType && !MayUpdate(old(capsules)[id], caller) ==>
        r == Threw(Security(Some(UpdateDeniedMessage)))
      ensures id in old(capsules) && old(capsules)[id].capsuleType == LandmarkType && MayUpdate(old(capsules)[id], caller) ==>
        if toJson(dto.content).None? then
          r == Threw(Other(Some(UpdateFailedMessage)))
        else if UpdatedLandmark(old(capsules)[id], dto, toJson(dto.content).value).Some? then
          var c := UpdatedLandmark(old(capsules)[id], dto, toJson(dto.content).value).value;
          capsules == old(capsules)[id := c] && r == Returned(ConvertToDTO(c, fromJson))
        else
          r.Threw? && r.exception.Other?
      ensures r.Threw? ==> capsules == old(capsules)
      ensures nextId == old(nextId)
    {
      if id !in capsules || capsules[id].capsuleType != LandmarkType {
        return Threw(IllegalArgument(Some(NotFoundMessage)));
      }
      var capsule := capsules[id];
      if !MayUpdate(capsule, caller) {
        return Threw(Security(Some(UpdateDeniedMessage)));
      }
      var json := toJson(dto.content);
      if json.None? {
        return Threw(Other(Some(UpdateFailedMessage)));
      }
      var saved := Save(UpdatedDraft(capsule, dto, json.value));
      if saved.None? {
        // the NOT NULL refusal at commit; its message is not modelled
        return Threw(Other(None));
      }
      r := Returned(ConvertToDTO(saved.value, fromJson));
    }

    /** capsuleRepository.deleteById: the capsule goes, and with it its images and shared keys. */
    method DeleteById(capsuleId: int)
      requires Valid()
      modifies this`capsules, this`images, this`sharedKeys
      ensures Valid()
      ensures capsules == old(capsules) - {capsuleId}
      ensures images == CascadeRemove(old(images), ImageOwner, capsuleId)
      ensures sharedKeys == CascadeRemove(old(sharedKeys), SharedKeyOwner, capsuleId)
    {
      CascadeKeepsReferences(images, ImageOwner, capsules.Keys, capsuleId);
      CascadeKeepsReferences(sharedKeys, SharedKeyOwner, capsules.Keys, capsuleId);
      images := CascadeRemove(images, ImageOwner, capsuleId);
      sharedKeys := CascadeRemove(sharedKeys, SharedKeyOwner, capsuleId);
      capsules := capsules - {capsuleId};
    }

    /**
     * deleteLandmark: any stored capsule, whatever its type, is deleted when
     * its owner is an admin; who calls does not matter.
     */
    method DeleteLandmark(capsuleId: int, caller: Member) returns (r: Outcome<()>)
      requires Valid()
      modifies this`capsules, this`images, this`sharedKeys
      ensures Valid()
      ensures capsuleId !in old(capsules) ==> r == Threw(IllegalArgument(Some(NotFoundMessage)))
      ensures capsuleId in old(capsules) && !MayDelete(old(capsules)[capsuleId], caller) ==>
        r == Threw(Security(Some(DeleteDeniedMessage)))
      ensures r.Returned? <==> capsuleId in old(capsules) && MayDelete(old(capsules)[capsuleId], caller)
      ensures r.Returned? ==>
        && capsules == old(capsules) - {capsuleId}
        && images == CascadeRemove(old(images), ImageOwner, capsuleId)
        && sharedKeys == CascadeRemove(old(sharedKeys), SharedKeyOwner, capsuleId)
      ensures r.Threw? ==> capsules == old(capsules) && images == old(images) && sharedKeys == old(sharedKeys)
    {
      if capsuleId !in capsules {
        return Threw(IllegalArgument(Some(NotFoundMessage)));
      }
      if !MayDelete(capsules[capsuleId], caller) {
        return Threw(Security(Some(DeleteDeniedMessage)));
      }
      DeleteById(capsuleId);
      r := Returned(());
    }
  }
}
