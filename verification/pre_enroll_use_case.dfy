/**
 * `PreEnrollParkingUseCase`: refuse an address already pre-enrolled, then
 * enforce the branch rule, then store a new active pre-enrollment that has
 * either the caller's internal id or a freshly generated external id.
 */
module PreEnrollUseCase {
  import opened JsValues
  import opened Exceptions
  import opened ParkingModel

  /** `PreSignUpParkingDto`; `internalId` is optional (`None` is `undefined`). */
  datatype PreEnrollDto = PreEnrollDto(
    legalRepresentative: string,
    nitDV: string,
    phone: string,
    email: string,
    address: string,
    city: int,
    neighborhood: string,
    hasBranches: bool,
    numberOfBranches: int,
    companyName: string,
    documentType: string,
    documentNumber: string,
    internalId: Option<string>)

  /** The object handed to `parkingRepository.create`: a pre-enrollment without its id. */
  datatype NewParking = NewParking(
    legalRepresentative: string,
    nitDV: string,
    phone: string,
    email: string,
    address: string,
    city: int,
    neighborhood: string,
    hasBranches: bool,
    numberOfBranches: int,
    companyName: string,
    documentType: string,
    documentNumber: string,
    idFiles: Option<int>,
    isStatus: int,
    internalId: Option<string>,
    externalId: Option<string>)

  /** The message of the branch rule. */
  const BRANCH_RULE_MESSAGE: string := "Number of branches must be greater than 0 when hasBranches is true"

  /** The calls the use case makes. */
  datatype PreEnrollStep =
    | FindParking(email: string)   // `parkingRepository.findByEmail`
    | NewUuid                      // `randomUUID()`
    | CreateParking(data: NewParking)

  datatype PreEnrollRun = PreEnrollRun(outcome: Attempt<Parking>, steps: seq<PreEnrollStep>)

  /** `preSignUpDto.internalId ? … : …`: absent and empty ids are falsy. */
  predicate HasInternalId(dto: PreEnrollDto) {
    dto.internalId.Some? && dto.internalId.value != ""
  }

  /** The branch rule: declaring branches demands a positive count. */
  predicate ViolatesBranchRule(dto: PreEnrollDto) {
    dto.hasBranches && dto.numberOfBranches <= 0
  }

  /**
   * `execute(preSignUpDto)`.  `uuid` is what `randomUUID()` yields; a
   * failing lookup or create propagates.
   */
  function Execute(dto: PreEnrollDto, findByEmail: string -> Attempt<Option<Parking>>, uuid: string,
                   create: NewParking -> Attempt<Parking>): (r: PreEnrollRun)
    ensures |r.steps| >= 1 && r.steps[0] == FindParking(dto.email)
    ensures findByEmail(dto.email).Raised? ==>
              r.outcome == Raised(findByEmail(dto.email).error) && |r.steps| == 1
    ensures findByEmail(dto.email).Done? && findByEmail(dto.email).value.Some? ==>
              r.outcome == Raised(Http(ParkingEmailAlreadyExists(dto.email))) && |r.steps| == 1
    ensures findByEmail(dto.email) == Done(None) && ViolatesBranchRule(dto) ==>
              r.outcome == Raised(Http(InvalidBusinessRule(BRANCH_RULE_MESSAGE))) && |r.steps| == 1
    ensures findByEmail(dto.email) == Done(None) && !ViolatesBranchRule(dto) ==>
              && r.steps[|r.steps| - 1].CreateParking?
              && r.outcome == create(r.steps[|r.steps| - 1].data)
              && (r.steps[1] == NewUuid <==> !HasInternalId(dto))
              && |r.steps| == (if HasInternalId(dto) then 2 else 3)
  {
    var first := [FindParking(dto.email)];
    match findByEmail(dto.email)
    case Raised(t) => PreEnrollRun(Raised(t), first)
    case Done(Some(_)) => PreEnrollRun(Raised(Http(ParkingEmailAlreadyExists(dto.email))), first)
    case Done(None) =>
      if ViolatesBranchRule(dto) then
        PreEnrollRun(Raised(Http(InvalidBusinessRule(BRANCH_RULE_MESSAGE))), first)
      else
        var data := NewParking(
          dto.legalRepresentative, dto.nitDV, dto.phone, dto.email, dto.address, dto.city,
          dto.neighborhood, dto.hasBranches, dto.numberOfBranches, dto.companyName,
          dto.documentType, dto.documentNumber,
          None, ACTIVE_STATUS, dto.internalId,
          if HasInternalId(dto) then None else Some(uuid));
        var steps := if HasInternalId(dto) then first + [CreateParking(data)]
                     else first + [NewUuid, CreateParking(data)];
        PreEnrollRun(create(data), steps)
  }

  /** The stored record of an accepted pre-enrollment, when there is one. */
  function CreatedRecord(r: PreEnrollRun): Option<NewParking> {
    if |r.steps| > 0 && r.steps[|r.steps| - 1].CreateParking? then Some(r.steps[|r.steps| - 1].data) else None
  }

  /**
   * A record is written exactly when the address is free and the branch
   * rule holds, and then once, as the last call; it copies the twelve
   * declared fields, has no files yet and is active.
   */
  lemma RecordWrittenIffAccepted(dto: PreEnrollDto, findByEmail: string -> Attempt<Option<Parking>>, uuid: string,
                                 create: NewParking -> Attempt<Parking>)
    ensures var rec := CreatedRecord(Execute(dto, findByEmail, uuid, create));
            rec.Some? <==> findByEmail(dto.email) == Done(None) && !ViolatesBranchRule(dto)
    ensures var r := Execute(dto, findByEmail, uuid, create);
            forall i :: 0 <= i < |r.steps| && r.steps[i].CreateParking? ==> i == |r.steps| - 1
    ensures var rec := CreatedRecord(Execute(dto, findByEmail, uuid, create));
            rec.Some? ==>
              && rec.value.legalRepresentative == dto.legalRepresentative && rec.value.nitDV == dto.nitDV
              && rec.value.phone == dto.phone && rec.value.email == dto.email
              && rec.value.address == dto.address && rec.value.city == dto.city
              && rec.value.neighborhood == dto.neighborhood && rec.value.hasBranches == dto.hasBranches
              && rec.value.numberOfBranches == dto.numberOfBranches && rec.value.companyName == dto.companyName
              && rec.value.documentType == dto.documentType && rec.value.documentNumber == dto.documentNumber
              && rec.value.idFiles.None? && rec.value.isStatus == ACTIVE_STATUS
              && (rec.value.hasBranches ==> rec.value.numberOfBranches > 0)
  {
    var r := Execute(dto, findByEmail, uuid, create);
    if findByEmail(dto.email) == Done(None) && !ViolatesBranchRule(dto) && HasInternalId(dto) {
      assert r.steps == [FindParking(dto.email), r.steps[1]];
    }
  }

  /**
   * Identifier exclusivity: the record keeps the caller's internal id, and
   * carries the generated external id exactly when that internal id is
   * absent or empty; a UUID is drawn only then.
   */
  lemma IdentifierExclusivity(dto: PreEnrollDto, findByEmail: string -> Attempt<Option<Parking>>, uuid: string,
                              create: NewParking -> Attempt<Parking>)
    requires findByEmail(dto.email) == Done(None) && !ViolatesBranchRule(dto)
    ensures var r := Execute(dto, findByEmail, uuid, create);
            var rec := CreatedRecord(r).value;
            && rec.internalId == dto.internalId
            && (rec.externalId.Some? <==> !HasInternalId(dto))
            && (rec.externalId.Some? ==> rec.externalId.value == uuid)
            && (NewUuid in r.steps <==> !HasInternalId(dto))
  {
    var r := Execute(dto, findByEmail, uuid, create);
    if HasInternalId(dto) {
      assert r.steps == [FindParking(dto.email), r.steps[1]];
    }
  }

  /** An empty internal id counts as none: it is stored, and an external id is generated beside it. */
  lemma EmptyInternalIdGetsExternalId(dto: PreEnrollDto, findByEmail: string -> Attempt<Option<Parking>>,
                                      uuid: string, create: NewParking -> Attempt<Parking>)
    requires findByEmail(dto.email) == Done(None) && !ViolatesBranchRule(dto)
    requires dto.internalId == Some("")
    ensures CreatedRecord(Execute(dto, findByEmail, uuid, create)).value.internalId == Some("")
    ensures CreatedRecord(Execute(dto, findByEmail, uuid, create)).value.externalId == Some(uuid)
  {
  }

  /** A taken address is reported before the branch rule is looked at. */
  lemma DuplicateEmailCheckedFirst(dto: PreEnrollDto, existing: Parking, uuid: string,
                                   create: NewParking -> Attempt<Parking>)
    requires ViolatesBranchRule(dto)
    ensures Execute(dto, e => Done(Some(existing)), uuid, create).outcome
            == Raised(Http(ParkingEmailAlreadyExists(dto.email)))
  {
  }
}
