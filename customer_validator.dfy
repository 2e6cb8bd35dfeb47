/** CustomerCreateValidator. The email-format rule (EmailAddress) is a parameter: its
    definition is part of FluentValidation, not of this program. */
module CustomerValidators {
  import opened Dtos
  import opened ValidationRules

  function ValidateCustomerCreate(dto: CustomerCreateDto, isEmailAddress: string -> bool): (r: seq<string>)
    ensures |r| == Fails(NotEmpty(dto.name)) + Fails(|dto.name| <= 100) + Fails(NotEmpty(dto.email))
                   + Fails(isEmailAddress(dto.email)) + Fails(|dto.email| <= 100) + Fails(|dto.phone| <= 20)
    ensures !NotEmpty(dto.name) ==> "Name is required" in r
    ensures !NotEmpty(dto.email) ==> "Email is required" in r
    ensures !isEmailAddress(dto.email) ==> "Email format is invalid" in r
    ensures |dto.phone| > 20 ==> "Phone number cannot exceed 20 characters" in r
  {
    Check(NotEmpty(dto.name), "Name is required")
    + Check(MaximumLength(dto.name, 100), "Name cannot exceed 100 characters")
    + Check(NotEmpty(dto.email), "Email is required")
    + Check(isEmailAddress(dto.email), "Email format is invalid")
    + Check(MaximumLength(dto.email, 100), "Email cannot exceed 100 characters")
    + Check(MaximumLength(dto.phone, 20), "Phone number cannot exceed 20 characters")
  }

  /** What the validator accepts, rule by rule: a phone number may be empty. Whether the
      email is already taken is not part of it; only the service checks that. */
  lemma CustomerCreateAccepts(dto: CustomerCreateDto, isEmailAddress: string -> bool)
    ensures ValidateCustomerCreate(dto, isEmailAddress) == [] <==>
            && NotEmpty(dto.name) && |dto.name| <= 100
            && NotEmpty(dto.email) && isEmailAddress(dto.email) && |dto.email| <= 100
            && |dto.phone| <= 20
  {
  }

  /** A blank name is reported as missing. */
  lemma BlankNameRejected(dto: CustomerCreateDto, isEmailAddress: string -> bool)
    requires dto.name == "   "
    ensures "Name is required" in ValidateCustomerCreate(dto, isEmailAddress)
  {
    BlankIsEmpty(dto.name);
  }
}
