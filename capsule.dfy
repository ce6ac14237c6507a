/**
 * The Capsule entity: an immutable row of the CAPSULES table, the nullable
 * object a builder produces before it is stored, and the Image and SharedKey
 * rows that depend on a capsule and go with it when it is removed.
 */
module Entity {
  import opened Wrappers

  /** Member.role. ROLE_ADMIN is the only value the core tests for. */
  datatype Role = RoleUser | RoleAdmin

  /** The owning member, as far as the core reads it. */
  datatype Member = Member(id: int, nickname: string, kakaoId: string, role: Role)

  /** A java.time.LocalDate; copied, never inspected. */
  datatype Date = Date(year: int, month: int, day: int)

  /** A java.lang.Float, kept as its 32-bit pattern; copied, never inspected. */
  datatype Float32 = Float32(bits: bv32)

  /** An uploaded file handed to the image store. */
  datatype Upload = Upload(fileName: string)

  /**
   * A stored capsule. Every column is declared not null, so a stored row has a
   * value in each; the generated key is `id`. There are no setters: a capsule
   * changes only by building a new value.
   */
  datatype Capsule = Capsule(
    id: int,
    address: string,
    unlockDate: Date,
    capsuleCode: string,
    longitude: Float32,
    latitude: Float32,
    title: string,
    content: string,
    capsuleType: int,
    member: Member)

  /**
   * A Capsule object as built in memory by `Capsule.builder()` or
   * `toBuilder()`: any field may still be null (None) until it is stored.
   */
  datatype CapsuleDraft = CapsuleDraft(
    id: Option<int>,
    address: Option<string>,
    unlockDate: Option<Date>,
    capsuleCode: Option<string>,
    longitude: Option<Float32>,
    latitude: Option<Float32>,
    title: Option<string>,
    content: Option<string>,
    capsuleType: Option<int>,
    member: Option<Member>)

  /** `Capsule.builder()`: nothing set yet. */
  const EmptyBuilder: CapsuleDraft :=
    CapsuleDraft(None, None, None, None, None, None, None, None, None, None)

  /** Every column declared `nullable = false` holds a value (the key is generated, so it is not among them). */
  predicate NotNullColumnsSet(d: CapsuleDraft) {
    && d.address.Some? && d.unlockDate.Some? && d.capsuleCode.Some?
    && d.longitude.Some? && d.latitude.Some? && d.title.Some?
    && d.content.Some? && d.capsuleType.Some? && d.member.Some?
  }

  /** The default `@Column` length of a string column; `content` is a `@Lob` and has none. */
  const ColumnLength: int := 255

  /** Every string column of the draft that is set fits its column. */
  predicate FitsColumns(d: CapsuleDraft) {
    && (d.address.Some? ==> |d.address.value| <= ColumnLength)
    && (d.capsuleCode.Some? ==> |d.capsuleCode.value| <= ColumnLength)
    && (d.title.Some? ==> |d.title.value| <= ColumnLength)
  }

  /** The database accepts the draft: no not-null column is null and no string is longer than its column. */
  predicate Storable(d: CapsuleDraft) {
    NotNullColumnsSet(d) && FitsColumns(d)
  }

  /** A capsule whose strings fit their columns, as every stored row does. */
  predicate Fits(c: Capsule) {
    |c.address| <= ColumnLength && |c.capsuleCode| <= ColumnLength && |c.title| <= ColumnLength
  }

  /** `capsule.toBuilder()`: a builder holding every field of the capsule. */
  function ToBuilder(c: Capsule): (d: CapsuleDraft)
    ensures NotNullColumnsSet(d) && d.id == Some(c.id)
    ensures Storable(d) <==> Fits(c)
    ensures d.address == Some(c.address) && d.unlockDate == Some(c.unlockDate)
    ensures d.capsuleCode == Some(c.capsuleCode) && d.longitude == Some(c.longitude)
    ensures d.latitude == Some(c.latitude) && d.title == Some(c.title)
    ensures d.content == Some(c.content) && d.capsuleType == Some(c.capsuleType)
    ensures d.member == Some(c.member)
  {
    CapsuleDraft(Some(c.id), Some(c.address), Some(c.unlockDate), Some(c.capsuleCode),
                 Some(c.longitude), Some(c.latitude), Some(c.title), Some(c.content),
                 Some(c.capsuleType), Some(c.member))
  }

  /**
   * The row the table holds after storing draft `d` under key `id`, or None
   * when a not-null column is null or a string is too long for its column
   * and the store refuses it. Storing is the inverse of ToBuilder: the
   * builder of the stored row is the draft itself.
   */
  function Row(d: CapsuleDraft, id: int): (r: Option<Capsule>)
    ensures r.Some? <==> Storable(d)
    ensures r.Some? ==> r.value.id == id && Fits(r.value) && ToBuilder(r.value) == d.(id := Some(id))
  {
    if Storable(d) then
      Some(Capsule(id, d.address.value, d.unlockDate.value, d.capsuleCode.value,
                   d.longitude.value, d.latitude.value, d.title.value, d.content.value,
                   d.capsuleType.value, d.member.value))
    else
      None
  }

  /** A toBuilder copy with nothing overridden stores back as the same capsule. */
  lemma ToBuilderRoundTrip(c: Capsule)
    requires Fits(c)
    ensures Row(ToBuilder(c), c.id) == Some(c)
  {
  }

  /** A toBuilder copy keeps every field that is not overridden; here only the title is. */
  lemma ToBuilderKeepsOtherFields(c: Capsule, title: string)
    requires Fits(c) && |title| <= ColumnLength
    ensures Row(ToBuilder(c).(title := Some(title)), c.id) == Some(c.(title := title))
  {
  }

  /** An IMAGES row; it belongs to exactly one capsule. */
  datatype Image = Image(capsuleId: int, file: Upload)

  /** A SHARED_KEYS row; it belongs to exactly one capsule (its other columns are not part of this model). */
  datatype SharedKey = SharedKey(capsuleId: int)

  function ImageOwner(i: Image): int { i.capsuleId }

  function SharedKeyOwner(k: SharedKey): int { k.capsuleId }

  /** Every row of a dependent table refers to a key in `ids` (the foreign key holds). */
  ghost predicate RefersInto<R>(rows: map<int, R>, owner: R -> int, ids: set<int>) {
    forall k :: k in rows ==> owner(rows[k]) in ids
  }

  /**
   * The dependent table after the capsule `capsuleId` is removed with
   * `cascade = REMOVE`: its dependents go, every other row stays as it was.
   */
  function CascadeRemove<R>(rows: map<int, R>, owner: R -> int, capsuleId: int): (r: map<int, R>)
    ensures forall k :: k in r ==> k in rows && r[k] == rows[k] && owner(rows[k]) != capsuleId
    ensures forall k :: k in rows && owner(rows[k]) != capsuleId ==> k in r
  {
    map k | k in rows && owner(rows[k]) != capsuleId :: rows[k]
  }

  /** Removing a capsule together with its dependents leaves no dependent row dangling. */
  lemma CascadeKeepsReferences<R>(rows: map<int, R>, owner: R -> int, ids: set<int>, capsuleId: int)
    requires RefersInto(rows, owner, ids)
    ensures RefersInto(CascadeRemove(rows, owner, capsuleId), owner, ids - {capsuleId})
  {
  }
}
