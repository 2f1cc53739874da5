/** The request shapes `ScanDto` and `CreateScanDto` and the class-validator
    constraints declared on their fields. A request body field that is absent
    is `JUndefined`. */
module ScanDtos {
  import opened Json

  datatype ScanDto = ScanDto(url: Json, options: Json)

  datatype CreateScanDto = CreateScanDto(url: Json, options: Json, userId: Json)

  datatype Constraint = IsStringConstraint | IsNotEmptyConstraint | IsObjectConstraint

  datatype ValidationError = ValidationError(property: string, constraint: Constraint)

  /** class-validator `IsNotEmpty`: anything but `""`, `null` and `undefined`. */
  predicate NotEmpty(j: Json) {
    j != JStr("") && !IsNullish(j)
  }

  /** `@IsString() @IsNotEmpty()` on one property: the failed constraints. */
  function CheckRequiredString(property: string, j: Json): (errs: seq<ValidationError>)
    ensures errs == [] <==> j.JStr? && j.s != ""
    ensures forall e :: e in errs ==> e.property == property
  {
    (if j.JStr? then [] else [ValidationError(property, IsStringConstraint)])
    + (if NotEmpty(j) then [] else [ValidationError(property, IsNotEmptyConstraint)])
  }

  /** `@IsOptional() @IsObject()` on one property: a nullish value skips the
      check. */
  function CheckOptionalObject(property: string, j: Json): (errs: seq<ValidationError>)
    ensures errs == [] <==> IsNullish(j) || IsObject(j)
    ensures forall e :: e in errs ==> e.property == property && e.constraint == IsObjectConstraint
  {
    if IsNullish(j) || IsObject(j) then [] else [ValidationError(property, IsObjectConstraint)]
  }

  /** Running the validator on a `ScanDto`: every failed constraint, field by
      field in declaration order. */
  function ValidateScanDto(d: ScanDto): (errs: seq<ValidationError>)
    ensures forall e :: e in errs ==> e.property == "url" || e.property == "options"
    ensures |errs| <= 3
  {
    CheckRequiredString("url", d.url) + CheckOptionalObject("options", d.options)
  }

  /** Running the validator on a `CreateScanDto`: the `ScanDto` fields
      first, then `userId`. */
  function ValidateCreateScanDto(d: CreateScanDto): (errs: seq<ValidationError>)
    ensures |errs| >= |ValidateScanDto(ScanDto(d.url, d.options))|
    ensures errs[..|ValidateScanDto(ScanDto(d.url, d.options))|] == ValidateScanDto(ScanDto(d.url, d.options))
    ensures forall e :: e in errs ==> e.property == "url" || e.property == "options" || e.property == "userId"
  {
    CheckRequiredString("url", d.url)
    + CheckOptionalObject("options", d.options)
    + CheckRequiredString("userId", d.userId)
  }

  /** What a valid `ScanDto` is: a non-empty string url and, if present, an
      object as options. */
  predicate ValidScanDto(d: ScanDto) {
    d.url.JStr? && d.url.s != "" && (IsNullish(d.options) || IsObject(d.options))
  }

  predicate ValidCreateScanDto(d: CreateScanDto) {
    ValidScanDto(ScanDto(d.url, d.options)) && d.userId.JStr? && d.userId.s != ""
  }

  /** The validator accepts a `ScanDto` exactly when it is valid. */
  lemma ScanDtoValidatorIsExact(d: ScanDto)
    ensures ValidateScanDto(d) == [] <==> ValidScanDto(d)
  {
  }

  /** The validator accepts a `CreateScanDto` exactly when it is valid, and
      each error it reports names the field that failed. */
  lemma CreateScanDtoValidatorIsExact(d: CreateScanDto)
    ensures ValidateCreateScanDto(d) == [] <==> ValidCreateScanDto(d)
    ensures forall e :: e in ValidateCreateScanDto(d) && e.property == "userId" ==> !(d.userId.JStr? && d.userId.s != "")
    ensures forall e :: e in ValidateCreateScanDto(d) && e.property == "url" ==> !(d.url.JStr? && d.url.s != "")
  {
    var a := CheckRequiredString("url", d.url);
    var b := CheckOptionalObject("options", d.options);
    var c := CheckRequiredString("userId", d.userId);
    assert ValidateCreateScanDto(d) == a + b + c;
    forall e: ValidationError | e in a + b + c && e.property == "userId"
      ensures !(d.userId.JStr? && d.userId.s != "")
    {
      assert e !in a && e !in b;
    }
    forall e: ValidationError | e in a + b + c && e.property == "url"
      ensures !(d.url.JStr? && d.url.s != "")
    {
      assert e !in b && e !in c;
    }
  }

  /** The url is checked for being a non-empty string only: "not-a-url" is
      accepted in both shapes. */
  lemma NoUrlFormatCheck()
    ensures ValidateScanDto(ScanDto(JStr("not-a-url"), JUndefined)) == []
    ensures ValidateCreateScanDto(CreateScanDto(JStr("not-a-url"), JUndefined, JStr("u"))) == []
  {
  }

  /** `options` is never required: dropping it keeps a valid request valid,
      and `null` counts as absent. */
  lemma OptionsNeverRequired(d: CreateScanDto, absent: Json)
    requires IsNullish(absent)
    ensures ValidCreateScanDto(d) ==> ValidCreateScanDto(CreateScanDto(d.url, absent, d.userId))
    ensures ValidScanDto(ScanDto(d.url, d.options)) ==> ValidScanDto(ScanDto(d.url, absent))
  {
  }

  /** A valid `CreateScanDto` is a valid `ScanDto` plus a user id; without a
      user id it is refused. */
  lemma CreateRequiresUserId(d: CreateScanDto)
    ensures ValidCreateScanDto(d) ==> ValidScanDto(ScanDto(d.url, d.options))
    ensures IsNullish(d.userId) ==> ValidateCreateScanDto(d) != []
  {
    CreateScanDtoValidatorIsExact(d);
  }
}
