/**
 * `PreEnrolledParkingModel`: a parking provider's pre-enrollment record.
 * The model and its table row carry the same seventeen columns.
 */
module ParkingModel {
  import opened JsValues
  import Validation

  /** Status id of an active pre-enrollment. */
  const ACTIVE_STATUS: int := 1

  datatype Parking = Parking(
    id: int,
    legalRepresentative: string,
    nitDV: string,
    phone: string,
    email: string,
    address: string,
    city: int,
    neighborhood: string,
    hasBranches: bool,
    numberOfBranches: int,
    companyName: string,
    documentType: string,
    documentNumber: string,
    idFiles: Option<int>,       // `number | null`
    isStatus: int,
    internalId: Option<string>, // `string | null`
    externalId: Option<string>) // `string | null`

  /** The `pre-register` table row; its columns are those of the model. */
  type ParkingEntity = Parking

  /** `isActive()`. */
  predicate IsActive(p: Parking) {
    p.isStatus == ACTIVE_STATUS
  }

  /** `hasMultipleBranches()`: branches declared and more than one of them. */
  predicate HasMultipleBranches(p: Parking) {
    p.hasBranches && p.numberOfBranches > 1
  }

  /** `getFullAddress()`: the address, a comma and a space, the neighborhood. */
  function FullAddress(p: Parking): (r: string)
    ensures |r| == |p.address| + 2 + |p.neighborhood|
    ensures r[..|p.address|] == p.address && r[|p.address|..|p.address| + 2] == ", "
    ensures r[|p.address| + 2..] == p.neighborhood
  {
    p.address + ", " + p.neighborhood
  }

  /** `isValidEmail()`: the same pattern as the user model's. */
  predicate HasValidEmail(p: Parking) {
    Validation.IsValidEmail(p.email)
  }

  /** `isValidPhone()`. */
  predicate HasValidPhone(p: Parking) {
    Validation.IsValidPhone(p.phone)
  }

  /** `fromEntity(entity)`: column by column. */
  function FromEntity(e: ParkingEntity): Parking {
    Parking(e.id, e.legalRepresentative, e.nitDV, e.phone, e.email, e.address, e.city,
            e.neighborhood, e.hasBranches, e.numberOfBranches, e.companyName, e.documentType,
            e.documentNumber, e.idFiles, e.isStatus, e.internalId, e.externalId)
  }

  /** `toPlainObject()`: the seventeen fields as a plain object. */
  function ToPlainObject(p: Parking): map<string, Value> {
    map[
      "id" := Num(p.id),
      "legalRepresentative" := Str(p.legalRepresentative),
      "nitDV" := Str(p.nitDV),
      "phone" := Str(p.phone),
      "email" := Str(p.email),
      "address" := Str(p.address),
      "city" := Num(p.city),
      "neighborhood" := Str(p.neighborhood),
      "hasBranches" := Bool(p.hasBranches),
      "numberOfBranches" := Num(p.numberOfBranches),
      "companyName" := Str(p.companyName),
      "documentType" := Str(p.documentType),
      "documentNumber" := Str(p.documentNumber),
      "idFiles" := NullableNum(p.idFiles),
      "isStatus" := Num(p.isStatus),
      "internalId" := NullableStr(p.internalId),
      "externalId" := NullableStr(p.externalId)]
  }

  function ReadNullableNum(v: Value): Option<Option<int>> {
    match v
    case Null => Some(None)
    case Num(n) => Some(Some(n))
    case _ => None
  }

  function ReadNullableStr(v: Value): Option<Option<string>> {
    match v
    case Null => Some(None)
    case Str(s) => Some(Some(s))
    case _ => None
  }

  predicate IsStrField(m: map<string, Value>, k: string) {
    k in m && m[k].Str?
  }

  predicate IsNumField(m: map<string, Value>, k: string) {
    k in m && m[k].Num?
  }

  /** Reads a plain parking object back into a model, when it has that shape. */
  function FromPlainObject(m: map<string, Value>): Option<Parking> {
    if && IsNumField(m, "id") && IsStrField(m, "legalRepresentative") && IsStrField(m, "nitDV")
       && IsStrField(m, "phone") && IsStrField(m, "email") && IsStrField(m, "address")
       && IsNumField(m, "city") && IsStrField(m, "neighborhood")
       && "hasBranches" in m && m["hasBranches"].Bool?
       && IsNumField(m, "numberOfBranches") && IsStrField(m, "companyName")
       && IsStrField(m, "documentType") && IsStrField(m, "documentNumber")
       && "idFiles" in m && ReadNullableNum(m["idFiles"]).Some?
       && IsNumField(m, "isStatus")
       && "internalId" in m && ReadNullableStr(m["internalId"]).Some?
       && "externalId" in m && ReadNullableStr(m["externalId"]).Some?
    then
      Some(Parking(m["id"].n, m["legalRepresentative"].s, m["nitDV"].s, m["phone"].s, m["email"].s,
                   m["address"].s, m["city"].n, m["neighborhood"].s, m["hasBranches"].b,
                   m["numberOfBranches"].n, m["companyName"].s, m["documentType"].s,
                   m["documentNumber"].s, ReadNullableNum(m["idFiles"]).value, m["isStatus"].n,
                   ReadNullableStr(m["internalId"]).value, ReadNullableStr(m["externalId"]).value))
    else
      None
  }

  /** `m` holds each of the seventeen fields of `p` under its name. */
  predicate Represents(m: map<string, Value>, p: Parking) {
    && HoldsIdentity(m, p) && HoldsLocation(m, p) && HoldsCompany(m, p) && HoldsRecord(m, p)
  }

  predicate HoldsIdentity(m: map<string, Value>, p: Parking) {
    && "id" in m && m["id"] == Num(p.id)
    && "legalRepresentative" in m && m["legalRepresentative"] == Str(p.legalRepresentative)
    && "nitDV" in m && m["nitDV"] == Str(p.nitDV)
    && "phone" in m && m["phone"] == Str(p.phone)
    && "email" in m && m["email"] == Str(p.email)
  }

  predicate HoldsLocation(m: map<string, Value>, p: Parking) {
    && "address" in m && m["address"] == Str(p.address)
    && "city" in m && m["city"] == Num(p.city)
    && "neighborhood" in m && m["neighborhood"] == Str(p.neighborhood)
    && "hasBranches" in m && m["hasBranches"] == Bool(p.hasBranches)
    && "numberOfBranches" in m && m["numberOfBranches"] == Num(p.numberOfBranches)
  }

  predicate HoldsCompany(m: map<string, Value>, p: Parking) {
    && "companyName" in m && m["companyName"] == Str(p.companyName)
    && "documentType" in m && m["documentType"] == Str(p.documentType)
    && "documentNumber" in m && m["documentNumber"] == Str(p.documentNumber)
  }

  predicate HoldsRecord(m: map<string, Value>, p: Parking) {
    && "idFiles" in m && m["idFiles"] == NullableNum(p.idFiles)
    && "isStatus" in m && m["isStatus"] == Num(p.isStatus)
    && "internalId" in m && m["internalId"] == NullableStr(p.internalId)
    && "externalId" in m && m["externalId"] == NullableStr(p.externalId)
  }

  /** Reading back an object that holds every field of `p` gives `p`. */
  lemma ReadBack(m: map<string, Value>, p: Parking)
    requires Represents(m, p)
    ensures FromPlainObject(m) == Some(p)
  {
  }

  lemma PlainHoldsIdentity(p: Parking)
    ensures HoldsIdentity(ToPlainObject(p), p)
  {
  }

  lemma PlainHoldsLocation(p: Parking)
    ensures HoldsLocation(ToPlainObject(p), p)
  {
  }

  lemma PlainHoldsCompany(p: Parking)
    ensures HoldsCompany(ToPlainObject(p), p)
  {
  }

  lemma PlainHoldsRecord(p: Parking)
    ensures HoldsRecord(ToPlainObject(p), p)
  {
  }

  /** Loading a row and flattening it reproduces all seventeen columns of the row unchanged. */
  lemma EntityRoundTrip(e: ParkingEntity)
    ensures FromPlainObject(ToPlainObject(FromEntity(e))) == Some(e)
  {
    var p := FromEntity(e);
    PlainHoldsIdentity(p);
    PlainHoldsLocation(p);
    PlainHoldsCompany(p);
    PlainHoldsRecord(p);
    ReadBack(ToPlainObject(p), p);
  }

  /** A single declared branch is not "multiple branches"; two are. */
  lemma MultipleBranchesThreshold(p: Parking)
    requires p.hasBranches
    ensures p.numberOfBranches == 1 ==> !HasMultipleBranches(p)
    ensures p.numberOfBranches == 2 ==> HasMultipleBranches(p)
  {
  }

  /** The status and branch predicates read the same fields the plain object exposes. */
  lemma PredicatesReadPlainObject(p: Parking)
    ensures IsActive(p) <==> ToPlainObject(p)["isStatus"] == Num(ACTIVE_STATUS)
    ensures HasMultipleBranches(p) <==>
              ToPlainObject(p)["hasBranches"] == Bool(true) && ToPlainObject(p)["numberOfBranches"].n > 1
  {
  }

  /** The parking e-mail check is the same anchored pattern as the user's. */
  lemma EmailRuleIsPattern(p: Parking)
    ensures HasValidEmail(p) <==> Validation.MatchesEmailPattern(p.email)
  {
    Validation.EmailCheckMatchesPattern(p.email);
  }
}
